/** Shared vocabulary of the embedder model: nullable pointers, fatal checks,
    bytes and the string prefix test used by several callbacks. */
module Common {

  /** A value that may be absent; `None` stands for a C++ `nullptr`. */
  datatype Option<+T> = None | Some(value: T)

  /** The outcome of code guarded by `FTL_CHECK`/`CHECK`: either it goes on
      with a value, or the check fails and the process is aborted. */
  datatype Result<+T> = Ok(value: T) | Fatal(reason: string)

  /** An address handed out by the dynamic loader or by `mmap`; a zero
      address is `nullptr`, which `None` stands for. */
  type Address = a: nat | a > 0 witness 1

  type Byte = bv8

  /** The host settings this core reads (`SkySettings`). */
  datatype SkySettings = SkySettings(
    enableDartCheckedMode: bool,
    startPaused: bool,
    traceStartup: bool,
    enableObservatory: bool,
    observatoryPort: int,
    aotSnapshotPath: string,
    tempDirectoryPath: string)

  /** Names of the snapshot symbols the VM asks the resolver for. */
  const VmIsolateSnapshotBufferName := "kDartVmIsolateSnapshotBuffer"
  const IsolateSnapshotBufferName := "kDartIsolateSnapshotBuffer"
  const InstructionsSnapshotName := "kInstructionsSnapshot"
  const DataSnapshotName := "kDataSnapshot"

  /** Case-sensitive prefix test (`base::StartsWith` with `SENSITIVE`). */
  predicate StartsWith(s: string, prefix: string)
  {
    |prefix| <= |s| && s[..|prefix|] == prefix
  }

  /** Concatenation is associative; a step the solver does not always take
      on its own when a sequence is built up piece by piece. */
  lemma AppendAssoc<T>(a: seq<T>, b: seq<T>, c: seq<T>)
    ensures a + (b + c) == (a + b) + c
  {
  }
}
