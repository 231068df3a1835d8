/** The VM flag vector that `InitDartVM` hands to `Dart_SetVMFlags`
    (sky/engine/core/script/dart_init.cc): fixed tables, then mode- and
    settings-dependent tables, then the user's `dart-flags`, in that order. */
module VmFlags {
  import opened Common
  import opened FlagSplitting

  /** Build-time switches that change the flags: `ENABLE(DART_STRICT)`, and
      whether the target is iOS or macOS, where LLDB is the debugger. */
  datatype Build = Build(strict: bool, lldbPlatform: bool)

  const IgnoreUnrecognizedFlags := "--ignore-unrecognized-flags"

  const PrecompilationFlag := "--precompilation"
  const EnableAssertsFlag := "--enable_asserts"
  const EnableTypeChecksFlag := "--enable_type_checks"
  const ErrorOnBadTypeFlag := "--error_on_bad_type"
  const ErrorOnBadOverrideFlag := "--error_on_bad_override"
  const PauseIsolatesOnStartFlag := "--pause_isolates_on_start"
  const TimelineStreamsFlag := "--timeline_streams=Compiler,Dart,Embedder,GC"
  const TimelineRecorderFlag := "--timeline_recorder=endless"

  /** `kDartProfilingArgs`: the profile period, and on LLDB platforms a
      switch that turns the profiler (and its SIGPROF signals) off. */
  function ProfilingArgs(build: Build): seq<string>
  {
    ["--profile_period=1000"] + (if build.lldbPlatform then ["--no-profiler"] else [])
  }

  const MirrorsArgs: seq<string> := ["--enable_mirrors=false"]
  const PrecompilationArgs: seq<string> := [PrecompilationFlag]
  const BackgroundCompilationArgs: seq<string> := ["--background_compilation"]
  const CheckedModeArgs: seq<string> :=
    [EnableAssertsFlag, EnableTypeChecksFlag, ErrorOnBadTypeFlag, ErrorOnBadOverrideFlag]
  const StartPausedArgs: seq<string> := [PauseIsolatesOnStartFlag]
  const TraceStartupArgs: seq<string> := [TimelineStreamsFlag, TimelineRecorderFlag]

  /** `ShouldEnableCheckedMode`: never in precompiled mode; otherwise always in
      a strict build, and as the host setting says in any other build. */
  function ShouldEnableCheckedMode(precompiled: bool, build: Build, settings: SkySettings): (r: bool)
    ensures r <==> !precompiled && (build.strict || settings.enableDartCheckedMode)
    ensures precompiled ==> !r
  {
    if precompiled then false
    else if build.strict then true
    else settings.enableDartCheckedMode
  }

  /** The flags that are there whatever the mode and the settings. */
  function FixedArgs(build: Build): seq<string>
  {
    [IgnoreUnrecognizedFlags] + ProfilingArgs(build) + MirrorsArgs + BackgroundCompilationArgs
  }

  /** Everything `InitDartVM` appends before the user's flags. */
  function DefaultArgs(precompiled: bool, build: Build, settings: SkySettings): seq<string>
  {
    FixedArgs(build) + ModeArgs(precompiled, build, settings)
  }

  /** The tables appended only under the execution mode or a setting, in order. */
  function ModeArgs(precompiled: bool, build: Build, settings: SkySettings): seq<string>
  {
    When(precompiled, PrecompilationArgs)
    + When(ShouldEnableCheckedMode(precompiled, build, settings), CheckedModeArgs)
    + When(settings.startPaused, StartPausedArgs)
    + When(settings.traceStartup, TraceStartupArgs)
  }

  /** A table that is appended only under a condition. */
  function When(condition: bool, table: seq<string>): seq<string>
  {
    if condition then table else []
  }

  /** The words of the `dart-flags` switch, or nothing when it is absent. */
  function UserArgs(dartFlags: Option<string>): seq<string>
  {
    if dartFlags.Some? then Tokens(dartFlags.value) else []
  }

  /** The complete flag vector passed to `Dart_SetVMFlags`. */
  function VmFlags(precompiled: bool, build: Build, settings: SkySettings, dartFlags: Option<string>): seq<string>
  {
    DefaultArgs(precompiled, build, settings) + UserArgs(dartFlags)
  }

  /** Position of the first occurrence of `x` in `s`. */
  function IndexOf(s: seq<string>, x: string): (i: nat)
    requires x in s
    ensures i < |s| && s[i] == x
    ensures forall j :: 0 <= j < i ==> s[j] != x
  {
    if s[0] == x then 0 else 1 + IndexOf(s[1..], x)
  }

  /** `a` occurs in `s`, and its first occurrence comes before that of `b`. */
  predicate Precedes(s: seq<string>, a: string, b: string)
  {
    a in s && b in s && IndexOf(s, a) < IndexOf(s, b)
  }

  /** The vector always opens with `--ignore-unrecognized-flags`, then the
      profiling, mirrors and background-compilation tables, and these leading
      flags are the same whatever the mode, the settings and the user flags. */
  lemma FixedArgsLead(precompiled: bool, build: Build, settings: SkySettings, dartFlags: Option<string>,
                      precompiled': bool, settings': SkySettings, dartFlags': Option<string>)
    ensures var v := VmFlags(precompiled, build, settings, dartFlags);
      |FixedArgs(build)| <= |v| && v[..|FixedArgs(build)|] == FixedArgs(build)
      && v[0] == IgnoreUnrecognizedFlags
      && v[|ProfilingArgs(build)| + 1] == "--enable_mirrors=false"
      && v[|ProfilingArgs(build)| + 2] == "--background_compilation"
    ensures var n := |FixedArgs(build)|;
      VmFlags(precompiled, build, settings, dartFlags)[..n]
      == VmFlags(precompiled', build, settings', dartFlags')[..n]
  {
    var n := |FixedArgs(build)|;
    var v := VmFlags(precompiled, build, settings, dartFlags);
    var v' := VmFlags(precompiled', build, settings', dartFlags');
    assert v == FixedArgs(build) + (v[n..]);
    assert v' == FixedArgs(build) + (v'[n..]);
  }

  /** No fixed table holds a mode- or settings-dependent flag. */
  lemma FixedArgsExclude(build: Build)
    ensures PrecompilationFlag !in FixedArgs(build)
    ensures forall f :: f in CheckedModeArgs ==> f !in FixedArgs(build)
    ensures PauseIsolatesOnStartFlag !in FixedArgs(build)
    ensures TimelineStreamsFlag !in FixedArgs(build) && TimelineRecorderFlag !in FixedArgs(build)
  {
    var fixed := FixedArgs(build);
    assert fixed == if build.lldbPlatform
      then ["--ignore-unrecognized-flags", "--profile_period=1000", "--no-profiler",
            "--enable_mirrors=false", "--background_compilation"]
      else ["--ignore-unrecognized-flags", "--profile_period=1000",
            "--enable_mirrors=false", "--background_compilation"];
  }

  /** `--precompilation` is among the default flags exactly in precompiled mode. */
  lemma PrecompilationFlagIff(precompiled: bool, build: Build, settings: SkySettings)
    ensures PrecompilationFlag in DefaultArgs(precompiled, build, settings) <==> precompiled
  {
    FixedArgsExclude(build);
  }

  /** The four checked-mode flags are among the default flags exactly when the
      mode is not precompiled and the build is strict or the setting asks for
      checked mode; so a precompiled VM never gets them. */
  lemma CheckedModeFlagsIff(precompiled: bool, build: Build, settings: SkySettings)
    ensures forall f :: f in CheckedModeArgs ==>
      (f in DefaultArgs(precompiled, build, settings)
       <==> !precompiled && (build.strict || settings.enableDartCheckedMode))
    ensures precompiled ==> forall f :: f in CheckedModeArgs ==> f !in DefaultArgs(precompiled, build, settings)
  {
    FixedArgsExclude(build);
  }

  /** The start-paused and startup-tracing flags are among the default flags
      exactly when their settings are on. */
  lemma SettingsFlagsIff(precompiled: bool, build: Build, settings: SkySettings)
    ensures PauseIsolatesOnStartFlag in DefaultArgs(precompiled, build, settings) <==> settings.startPaused
    ensures TimelineStreamsFlag in DefaultArgs(precompiled, build, settings) <==> settings.traceStartup
    ensures TimelineRecorderFlag in DefaultArgs(precompiled, build, settings) <==> settings.traceStartup
  {
    FixedArgsExclude(build);
  }

  /** A flag of the first part of a vector precedes any flag that only the
      second part holds. */
  lemma PrecedesAcross(front: seq<string>, back: seq<string>, a: string, b: string)
    requires a in front && b !in front && b in back
    ensures Precedes(front + back, a, b)
  {
    var s := front + back;
    var i := IndexOf(front, a);
    assert s[i] == a;
    var j := IndexOf(back, b);
    assert s[|front| + j] == b;
    assert IndexOf(s, a) <= i;
    forall k | 0 <= k < |front|
      ensures s[k] != b
    {
      assert s[k] == front[k];
    }
  }

  /** When checked mode is on, each of its four flags comes before the
      start-paused flag and before both startup-tracing flags. */
  lemma CheckedModeFlagsOrder(precompiled: bool, build: Build, settings: SkySettings)
    requires ShouldEnableCheckedMode(precompiled, build, settings)
    ensures settings.startPaused ==> forall f :: f in CheckedModeArgs ==>
      Precedes(DefaultArgs(precompiled, build, settings), f, PauseIsolatesOnStartFlag)
    ensures settings.traceStartup ==> forall f :: f in CheckedModeArgs ==>
      Precedes(DefaultArgs(precompiled, build, settings), f, TimelineStreamsFlag)
      && Precedes(DefaultArgs(precompiled, build, settings), f, TimelineRecorderFlag)
  {
    var front := FixedArgs(build) + CheckedModeArgs;
    var back := When(settings.startPaused, StartPausedArgs) + When(settings.traceStartup, TraceStartupArgs);
    FixedArgsExclude(build);
    assert DefaultArgs(precompiled, build, settings) == front + back by {
      AppendAssoc(FixedArgs(build), CheckedModeArgs, back);
    }
    forall f | f in CheckedModeArgs
      ensures settings.startPaused ==> Precedes(front + back, f, PauseIsolatesOnStartFlag)
      ensures settings.traceStartup ==>
        Precedes(front + back, f, TimelineStreamsFlag) && Precedes(front + back, f, TimelineRecorderFlag)
    {
      if settings.startPaused {
        assert back[0] == PauseIsolatesOnStartFlag;
        PrecedesAcross(front, back, f, PauseIsolatesOnStartFlag);
      }
      if settings.traceStartup {
        assert back[|back| - 2] == TimelineStreamsFlag && back[|back| - 1] == TimelineRecorderFlag;
        PrecedesAcross(front, back, f, TimelineStreamsFlag);
        PrecedesAcross(front, back, f, TimelineRecorderFlag);
      }
    }
  }

  /** With both settings on, the start-paused flag comes before both
      startup-tracing flags, whatever the mode. */
  lemma StartPausedBeforeTracing(precompiled: bool, build: Build, settings: SkySettings)
    requires settings.startPaused && settings.traceStartup
    ensures Precedes(DefaultArgs(precompiled, build, settings), PauseIsolatesOnStartFlag, TimelineStreamsFlag)
    ensures Precedes(DefaultArgs(precompiled, build, settings), PauseIsolatesOnStartFlag, TimelineRecorderFlag)
  {
    var front := FixedArgs(build) + When(precompiled, PrecompilationArgs)
      + When(ShouldEnableCheckedMode(precompiled, build, settings), CheckedModeArgs) + StartPausedArgs;
    FixedArgsExclude(build);
    assert front[|front| - 1] == PauseIsolatesOnStartFlag;
    assert DefaultArgs(precompiled, build, settings) == front + TraceStartupArgs;
    assert TraceStartupArgs[0] == TimelineStreamsFlag && TraceStartupArgs[1] == TimelineRecorderFlag;
    PrecedesAcross(front, TraceStartupArgs, PauseIsolatesOnStartFlag, TimelineStreamsFlag);
    PrecedesAcross(front, TraceStartupArgs, PauseIsolatesOnStartFlag, TimelineRecorderFlag);
  }

  /** The words of `dart-flags` come last, all of them, in their original order:
      a switch value made of flags joined by spaces yields those very flags at
      the end of the vector. */
  lemma UserFlagsLast(precompiled: bool, build: Build, settings: SkySettings, userFlags: seq<string>)
    requires forall k :: 0 <= k < |userFlags| ==> IsToken(userFlags[k])
    ensures var v := VmFlags(precompiled, build, settings, Some(JoinWithSpaces(userFlags)));
      |userFlags| <= |v| && v[|v| - |userFlags|..] == userFlags
      && v[..|v| - |userFlags|] == DefaultArgs(precompiled, build, settings)
  {
    TokensOfJoin(userFlags);
  }

  /** A growable vector of flags (`Vector<const char*>` in the source): a
      buffer of some capacity whose first `size` slots hold the flags. */
  class FlagVector {
    var buffer: array<string>
    var size: nat
    ghost var Repr: set<object>

    ghost predicate Valid()
      reads this, Repr
    {
      Repr == {this, buffer} && size <= buffer.Length
    }

    /** The flags appended so far, in order. */
    function Contents(): seq<string>
      reads this, Repr
      requires Valid()
    {
      buffer[..size]
    }

    constructor ()
      ensures Valid() && fresh(Repr) && Contents() == []
    {
      buffer := new string[4];
      size := 0;
      Repr := {this, buffer};
    }

    /** Makes room for at least `capacity` flags without changing the contents;
        a larger buffer replaces the old one when needed. */
    method ExpandCapacity(capacity: nat)
      requires Valid()
      modifies Repr
      ensures Valid() && fresh(Repr - old(Repr))
      ensures Contents() == old(Contents()) && size == old(size)
      ensures capacity <= buffer.Length
    {
      if buffer.Length < capacity {
        var grown := buffer.Length + buffer.Length / 4 + 1;
        if grown < capacity {
          grown := capacity;
        }
        var larger := new string[grown];
        for i := 0 to size
          modifies larger
          invariant larger[..i] == buffer[..i]
        {
          larger[i] := buffer[i];
        }
        buffer := larger;
        Repr := {this, larger};
      }
    }

    /** Appends one flag. */
    method Append(flag: string)
      requires Valid()
      modifies Repr
      ensures Valid() && fresh(Repr - old(Repr))
      ensures Contents() == old(Contents()) + [flag]
    {
      ExpandCapacity(size + 1);
      buffer[size] := flag;
      size := size + 1;
    }

    /** Appends a whole table of flags, in its order. */
    method AppendAll(flags: seq<string>)
      requires Valid()
      modifies Repr
      ensures Valid() && fresh(Repr - old(Repr))
      ensures Contents() == old(Contents()) + flags
    {
      ExpandCapacity(size + |flags|);
      var start := size;
      var b := buffer;
      for i := 0 to |flags|
        invariant buffer == b && Repr == {this, b}
        invariant size == start + i && Valid()
        invariant b.Length >= start + |flags|
        invariant Contents() == old(Contents()) + flags[..i]
      {
        buffer[size] := flags[i];
        size := size + 1;
      }
    }

    /** `if (condition) args.append(table)`: appends the table only when the
        condition holds. */
    method AppendIf(condition: bool, flags: seq<string>)
      requires Valid()
      modifies Repr
      ensures Valid() && fresh(Repr - old(Repr))
      ensures Contents() == old(Contents()) + When(condition, flags)
    {
      if condition {
        AppendAll(flags);
      }
    }
  }

  /** The fixed tables of `InitDartVM`, appended to `v` in order. */
  method AppendFixedArgs(v: FlagVector, build: Build)
    requires v.Valid()
    modifies v.Repr
    ensures v.Valid() && fresh(v.Repr - old(v.Repr))
    ensures v.Contents() == old(v.Contents()) + FixedArgs(build)
  {
    ghost var before := v.Contents();
    v.Append(IgnoreUnrecognizedFlags);
    v.AppendAll(ProfilingArgs(build));
    v.AppendAll(MirrorsArgs);
    v.AppendAll(BackgroundCompilationArgs);
    assert v.Contents() == before + FixedArgs(build);
  }

  /** The tables that depend on the execution mode and the settings,
      appended to `v` in order. */
  method AppendModeArgs(v: FlagVector, precompiled: bool, build: Build, settings: SkySettings)
    requires v.Valid()
    modifies v.Repr
    ensures v.Valid() && fresh(v.Repr - old(v.Repr))
    ensures v.Contents() == old(v.Contents()) + ModeArgs(precompiled, build, settings)
  {
    ghost var before := v.Contents();
    var checked := ShouldEnableCheckedMode(precompiled, build, settings);
    v.AppendIf(precompiled, PrecompilationArgs);
    ghost var added := When(precompiled, PrecompilationArgs);
    v.AppendIf(checked, CheckedModeArgs);
    AppendAssoc(before, added, When(checked, CheckedModeArgs));
    added := added + When(checked, CheckedModeArgs);
    v.AppendIf(settings.startPaused, StartPausedArgs);
    AppendAssoc(before, added, When(settings.startPaused, StartPausedArgs));
    added := added + When(settings.startPaused, StartPausedArgs);
    v.AppendIf(settings.traceStartup, TraceStartupArgs);
    AppendAssoc(before, added, When(settings.traceStartup, TraceStartupArgs));
    added := added + When(settings.traceStartup, TraceStartupArgs);
    assert ModeArgs(precompiled, build, settings) == added;
  }

  /** The fixed and conditional tables of `InitDartVM`, appended to `v` in order. */
  method AppendDefaultArgs(v: FlagVector, precompiled: bool, build: Build, settings: SkySettings)
    requires v.Valid()
    modifies v.Repr
    ensures v.Valid() && fresh(v.Repr - old(v.Repr))
    ensures v.Contents() == old(v.Contents()) + DefaultArgs(precompiled, build, settings)
  {
    ghost var before := v.Contents();
    AppendFixedArgs(v, build);
    AppendModeArgs(v, precompiled, build, settings);
    AppendAssoc(before, FixedArgs(build), ModeArgs(precompiled, build, settings));
  }

  /** `InitDartVM`'s composition of the flag vector: the tables are appended
      one after another to a growable vector, the `dart-flags` value is split
      into words that are appended last, and the result is the vector's contents. */
  method ComposeVmFlags(precompiled: bool, build: Build, settings: SkySettings, dartFlags: Option<string>)
    returns (args: seq<string>)
    ensures args == VmFlags(precompiled, build, settings, dartFlags)
    ensures args[0] == IgnoreUnrecognizedFlags
  {
    var v := new FlagVector();
    AppendDefaultArgs(v, precompiled, build, settings);
    var userFlags: seq<string> := [];
    if dartFlags.Some? {
      userFlags := SplitFlags(dartFlags.value);
    }
    for i := 0 to |userFlags|
      invariant v.Valid() && fresh(v.Repr)
      invariant v.Contents() == DefaultArgs(precompiled, build, settings) + userFlags[..i]
    {
      v.Append(userFlags[i]);
    }
    args := v.Contents();
    assert userFlags[..|userFlags|] == userFlags;
  }
}
