/** Symbol resolution by mapping asset files, the Android variant of
    `_DartSymbolLookup` (sky/engine/core/script/dart_init.cc): a fixed table
    of four snapshot symbols, each backed by a file under the AOT snapshot
    directory and each with a slot that caches the file's mapping. */
module SymbolAssets {
  import opened Common

  /** One row of `g_symbol_assets`. */
  datatype SymbolAsset = SymbolAsset(symbolName: string, fileName: string, isExecutable: bool, mapping: Option<Address>)

  /** The table as the program starts: nothing is mapped yet, and only the
      instructions are executable. */
  const InitialAssets: seq<SymbolAsset> := [
    SymbolAsset(VmIsolateSnapshotBufferName, "snapshot_aot_vmisolate", false, None),
    SymbolAsset(IsolateSnapshotBufferName, "snapshot_aot_isolate", false, None),
    SymbolAsset(InstructionsSnapshotName, "snapshot_aot_instr", true, None),
    SymbolAsset(DataSnapshotName, "snapshot_aot_rodata", false, None)
  ]

  /** `t` is the static table, whatever its mapping slots hold. */
  predicate HasStaticLayout(t: seq<SymbolAsset>)
  {
    |t| == |InitialAssets|
    && forall i :: 0 <= i < |t| ==> t[i].(mapping := None) == InitialAssets[i]
  }

  /** A symbol the table knows. */
  predicate IsTableSymbol(name: string)
  {
    name in {VmIsolateSnapshotBufferName, IsolateSnapshotBufferName, InstructionsSnapshotName, DataSnapshotName}
  }

  const ProtRead: bv32 := 0x1
  const ProtExec: bv32 := 0x4

  /** The protection `mmap` is asked for. */
  function Protection(isExecutable: bool): bv32
  {
    if isExecutable then ProtRead | ProtExec else ProtRead
  }

  datatype MmapRequest = MmapRequest(path: string, length: int, protection: bv32)

  /** The file-system calls a lookup makes, in order. */
  datatype IoCall =
    | GetFileSize(path: string)
    | Open(path: string)
    | Mmap(request: MmapRequest)
    | Close(path: string)

  /** What the file system would answer: the size `GetFileSize` reports per
      path, the paths `open` succeeds on, and the address `mmap` returns per
      request (a request that is absent fails with `MAP_FAILED`). */
  datatype FileSystem = FileSystem(sizes: map<string, int>, openable: set<string>, mappings: map<MmapRequest, Address>)

  /** `base::FilePath::Append` for a non-empty directory: one separator
      between the directory and the file name. */
  function AppendPath(dir: string, name: string): string
  {
    if |dir| > 0 && dir[|dir| - 1] == '/' then dir + name else dir + "/" + name
  }

  /** Index of the first row whose symbol is `name`, from row `from` on. */
  function MatchFrom(t: seq<SymbolAsset>, name: string, from: nat): (r: Option<nat>)
    requires from <= |t|
    ensures r.Some? ==> from <= r.value < |t| && t[r.value].symbolName == name
    ensures r.Some? ==> forall j :: from <= j < r.value ==> t[j].symbolName != name
    ensures r.None? ==> forall j :: from <= j < |t| ==> t[j].symbolName != name
    decreases |t| - from
  {
    if from == |t| then None
    else if t[from].symbolName == name then Some(from)
    else MatchFrom(t, name, from + 1)
  }

  /** What one lookup returns, the table it leaves, and the calls it made. */
  datatype LookupEffect = LookupEffect(result: Result<Option<Address>>, assets: seq<SymbolAsset>, calls: seq<IoCall>)

  /** Mapping the file of row `i`: a failed size query or a failed `open`
      give null and store nothing; otherwise the outcome of `mmap` (null on
      `MAP_FAILED`) is stored in the row and returned, and the file is closed. */
  function MapAsset(t: seq<SymbolAsset>, i: nat, aotSnapshotPath: string, fs: FileSystem): LookupEffect
    requires i < |t|
  {
    var path := AppendPath(aotSnapshotPath, t[i].fileName);
    if path !in fs.sizes then
      LookupEffect(Ok(None), t, [GetFileSize(path)])
    else if path !in fs.openable then
      LookupEffect(Ok(None), t, [GetFileSize(path), Open(path)])
    else
      var request := MmapRequest(path, fs.sizes[path], Protection(t[i].isExecutable));
      var symbol := if request in fs.mappings then Some(fs.mappings[request]) else None;
      LookupEffect(Ok(symbol), t[i := t[i].(mapping := symbol)],
                   [GetFileSize(path), Open(path), Mmap(request), Close(path)])
  }

  /** `_DartSymbolLookup` on Android, as a function of the table before the call. */
  function LookupStep(t: seq<SymbolAsset>, name: string, aotSnapshotPath: string, fs: FileSystem): LookupEffect
  {
    match MatchFrom(t, name, 0)
    case None => LookupEffect(Ok(None), t, [])
    case Some(i) =>
      if t[i].mapping.Some? then LookupEffect(Ok(t[i].mapping), t, [])
      else if aotSnapshotPath == "" then LookupEffect(Fatal("the AOT snapshot path is not set"), t, [])
      else MapAsset(t, i, aotSnapshotPath, fs)
  }

  /** In the static table a symbol is found exactly when it is one of the four. */
  lemma MatchInStaticTable(t: seq<SymbolAsset>, name: string)
    requires HasStaticLayout(t)
    ensures MatchFrom(t, name, 0).Some? <==> IsTableSymbol(name)
    ensures MatchFrom(t, name, 0).Some? ==> InitialAssets[MatchFrom(t, name, 0).value].symbolName == name
  {
    assert t[0].symbolName == VmIsolateSnapshotBufferName by { assert t[0].(mapping := None) == InitialAssets[0]; }
    assert t[1].symbolName == IsolateSnapshotBufferName by { assert t[1].(mapping := None) == InitialAssets[1]; }
    assert t[2].symbolName == InstructionsSnapshotName by { assert t[2].(mapping := None) == InitialAssets[2]; }
    assert t[3].symbolName == DataSnapshotName by { assert t[3].(mapping := None) == InitialAssets[3]; }
    var m := MatchFrom(t, name, 0);
    if m.Some? {
      var i := m.value;
      assert t[i].(mapping := None) == InitialAssets[i];
    }
  }

  /** A name outside the table yields null, touches no row and makes no call. */
  lemma UnknownSymbolHasNoEffect(t: seq<SymbolAsset>, name: string, aotSnapshotPath: string, fs: FileSystem)
    requires HasStaticLayout(t) && !IsTableSymbol(name)
    ensures LookupStep(t, name, aotSnapshotPath, fs) == LookupEffect(Ok(None), t, [])
  {
    MatchInStaticTable(t, name);
  }

  /** A row that already holds a mapping answers with that same address,
      leaves the table as it is and makes no call, whatever the file system
      and the snapshot directory. */
  lemma CachedMappingNeedsNoIo(t: seq<SymbolAsset>, i: nat, aotSnapshotPath: string, fs: FileSystem)
    requires HasStaticLayout(t) && i < |t| && t[i].mapping.Some?
    ensures LookupStep(t, t[i].symbolName, aotSnapshotPath, fs) == LookupEffect(Ok(t[i].mapping), t, [])
  {
    FirstMatchIsUnique(t, i);
  }

  /** Symbol names in the static table are distinct, so row `i` is the match for its own name. */
  lemma FirstMatchIsUnique(t: seq<SymbolAsset>, i: nat)
    requires HasStaticLayout(t) && i < |t|
    ensures MatchFrom(t, t[i].symbolName, 0) == Some(i)
  {
    forall j | 0 <= j < |t|
      ensures t[j].symbolName == InitialAssets[j].symbolName
    {
      assert t[j].(mapping := None) == InitialAssets[j];
    }
    var m := MatchFrom(t, t[i].symbolName, 0);
    assert m.Some?;
  }

  /** A lookup keeps the layout of the table, changes at most the mapping
      slot of the row it matched, and never changes a slot that already held a
      mapping. */
  lemma OnlyMatchedRowChanges(t: seq<SymbolAsset>, name: string, aotSnapshotPath: string, fs: FileSystem)
    requires HasStaticLayout(t)
    ensures var e := LookupStep(t, name, aotSnapshotPath, fs);
      HasStaticLayout(e.assets)
      && (forall j :: 0 <= j < |t| && t[j].symbolName != name ==> e.assets[j] == t[j])
      && (forall j :: 0 <= j < |t| && t[j].mapping.Some? ==> e.assets[j] == t[j])
  {
    var e := LookupStep(t, name, aotSnapshotPath, fs);
    var m := MatchFrom(t, name, 0);
    if m.Some? && t[m.value].mapping.None? && aotSnapshotPath != "" {
      var i := m.value;
      assert e.assets == t || e.assets == t[i := e.assets[i]];
      forall j | 0 <= j < |t|
        ensures e.assets[j].(mapping := None) == InitialAssets[j]
      {
        assert t[j].(mapping := None) == InitialAssets[j];
      }
    }
  }

  /** A successful lookup leaves its address in the matched row. */
  lemma SuccessIsCached(t: seq<SymbolAsset>, name: string, aotSnapshotPath: string, fs: FileSystem, a: Address)
    requires HasStaticLayout(t)
    requires LookupStep(t, name, aotSnapshotPath, fs).result == Ok(Some(a))
    ensures var e := LookupStep(t, name, aotSnapshotPath, fs);
      exists i :: 0 <= i < |e.assets| && e.assets[i].symbolName == name && e.assets[i].mapping == Some(a)
  {
    var e := LookupStep(t, name, aotSnapshotPath, fs);
    var i := MatchFrom(t, name, 0).value;
    assert e.assets[i].symbolName == name && e.assets[i].mapping == Some(a);
  }

  /** A lookup that yields null (size, open or mmap failure) leaves the table
      as it was, so the next lookup for the same name tries the file again. */
  lemma FailureIsRetried(t: seq<SymbolAsset>, name: string, aotSnapshotPath: string, fs: FileSystem, fs': FileSystem)
    requires HasStaticLayout(t) && IsTableSymbol(name) && aotSnapshotPath != ""
    requires LookupStep(t, name, aotSnapshotPath, fs).result == Ok(None)
    ensures LookupStep(t, name, aotSnapshotPath, fs).assets == t
    ensures LookupStep(t, name, aotSnapshotPath, fs').calls != []
  {
    MatchInStaticTable(t, name);
  }

  /** Idempotence: once a lookup has produced an address, the next lookup for
      the same name returns that very address, with no file access, whatever
      the file system then holds. */
  lemma LookupIsIdempotent(t: seq<SymbolAsset>, name: string, aotSnapshotPath: string, fs: FileSystem,
                           aotSnapshotPath': string, fs': FileSystem, a: Address)
    requires HasStaticLayout(t)
    requires LookupStep(t, name, aotSnapshotPath, fs).result == Ok(Some(a))
    ensures var t' := LookupStep(t, name, aotSnapshotPath, fs).assets;
      LookupStep(t', name, aotSnapshotPath', fs') == LookupEffect(Ok(Some(a)), t', [])
  {
    var t' := LookupStep(t, name, aotSnapshotPath, fs).assets;
    var i := MatchFrom(t, name, 0).value;
    OnlyMatchedRowChanges(t, name, aotSnapshotPath, fs);
    assert t'[i].mapping == Some(a) && t'[i].symbolName == name;
    CachedMappingNeedsNoIo(t', i, aotSnapshotPath', fs');
  }

  /** Only the instructions are mapped executable: every `mmap` a lookup makes
      asks for read access, and for execute access exactly when the symbol is
      the instructions snapshot. */
  lemma ExecuteOnlyForInstructions(t: seq<SymbolAsset>, name: string, aotSnapshotPath: string, fs: FileSystem)
    requires HasStaticLayout(t)
    ensures forall c :: c in LookupStep(t, name, aotSnapshotPath, fs).calls && c.Mmap? ==>
      c.request.protection & ProtRead != 0
      && (c.request.protection & ProtExec != 0 <==> name == InstructionsSnapshotName)
  {
    var m := MatchFrom(t, name, 0);
    if m.Some? {
      MatchInStaticTable(t, name);
      var i := m.value;
      assert t[i].(mapping := None) == InitialAssets[i];
      assert t[i].isExecutable <==> name == InstructionsSnapshotName;
    }
  }

  /** A lookup that needs the file while no snapshot directory is configured
      is a fatal error, before any file access. */
  lemma MissingSnapshotPathIsFatal(t: seq<SymbolAsset>, name: string, fs: FileSystem)
    requires HasStaticLayout(t) && IsTableSymbol(name)
    requires forall i :: 0 <= i < |t| && t[i].symbolName == name ==> t[i].mapping.None?
    ensures LookupStep(t, name, "", fs).result.Fatal?
    ensures LookupStep(t, name, "", fs).calls == []
  {
    MatchInStaticTable(t, name);
  }

  /** The process-wide table, `g_symbol_assets`, whose mapping slots are
      written in place. */
  class SymbolAssetTable {
    const assets: array<SymbolAsset>

    ghost predicate Valid()
      reads this, assets
    {
      HasStaticLayout(assets[..])
    }

    constructor ()
      ensures Valid() && fresh(assets) && assets[..] == InitialAssets
    {
      assets := new SymbolAsset[4] [
        InitialAssets[0], InitialAssets[1], InitialAssets[2], InitialAssets[3]];
      new;
      assert assets[..] == InitialAssets;
    }

    /** `_DartSymbolLookup`: scans the table for the name; a cached mapping
        is returned as is; otherwise the asset file is sized, opened and
        mapped, and the outcome is stored in that row. */
    method Lookup(symbolName: string, aotSnapshotPath: string, fs: FileSystem)
      returns (r: Result<Option<Address>>, calls: seq<IoCall>)
      requires Valid()
      modifies assets
      ensures Valid()
      ensures LookupEffect(r, assets[..], calls) == LookupStep(old(assets[..]), symbolName, aotSnapshotPath, fs)
    {
      var i := 0;
      while i < assets.Length && assets[i].symbolName != symbolName
        invariant 0 <= i <= assets.Length
        invariant forall j :: 0 <= j < i ==> assets[j].symbolName != symbolName
      {
        i := i + 1;
      }
      NoMatchBefore(assets[..], symbolName, 0, i);
      if i == assets.Length {
        return Ok(None), [];
      }
      if assets[i].mapping.Some? {
        return Ok(assets[i].mapping), [];
      }
      if aotSnapshotPath == "" {
        return Fatal("the AOT snapshot path is not set"), [];
      }
      var path := AppendPath(aotSnapshotPath, assets[i].fileName);
      if path !in fs.sizes {
        return Ok(None), [GetFileSize(path)];
      }
      var assetSize := fs.sizes[path];
      if path !in fs.openable {
        return Ok(None), [GetFileSize(path), Open(path)];
      }
      var flags := ProtRead;
      if assets[i].isExecutable {
        flags := flags | ProtExec;
      }
      var request := MmapRequest(path, assetSize, flags);
      var symbol := if request in fs.mappings then Some(fs.mappings[request]) else None;
      assets[i] := assets[i].(mapping := symbol);
      assert assets[..] == old(assets[..])[i := old(assets[i]).(mapping := symbol)];
      forall j | 0 <= j < assets.Length
        ensures assets[j].(mapping := None) == InitialAssets[j]
      {
        assert old(assets[..])[j].(mapping := None) == InitialAssets[j];
      }
      r, calls := Ok(symbol), [GetFileSize(path), Open(path), Mmap(request), Close(path)];
    }

    /** `IsRunningPrecompiledCode` on Android: precompiled exactly when the
        instructions symbol maps to a non-null address. */
    method IsRunningPrecompiledCode(aotSnapshotPath: string, fs: FileSystem)
      returns (r: Result<bool>, calls: seq<IoCall>)
      requires Valid()
      modifies assets
      ensures Valid()
      ensures var e := LookupStep(old(assets[..]), InstructionsSnapshotName, aotSnapshotPath, fs);
        assets[..] == e.assets && calls == e.calls
        && r == (if e.result.Ok? then Ok(e.result.value.Some?) else Fatal(e.result.reason))
    {
      var symbol;
      symbol, calls := Lookup(InstructionsSnapshotName, aotSnapshotPath, fs);
      if symbol.Fatal? {
        return Fatal(symbol.reason), calls;
      }
      r := Ok(symbol.value.Some?);
    }
  }

  /** No row before `to` matches, so the search from `from` reaches `to`. */
  lemma {:induction false} NoMatchBefore(t: seq<SymbolAsset>, name: string, from: nat, to: nat)
    requires from <= to <= |t|
    requires forall j :: from <= j < to ==> t[j].symbolName != name
    ensures MatchFrom(t, name, from) == MatchFrom(t, name, to)
    decreases |t| - from
  {
    if from < to {
      NoMatchBefore(t, name, from + 1, to);
    }
  }
}
