/** `DartFileModifiedCallback` (sky/engine/core/script/dart_init.cc): the VM
    asks whether the source behind a URL changed after a point in time given
    in milliseconds; only `file:` URLs whose file can be examined can be
    reported unchanged. Times are `base::Time` values, counted here in
    microseconds since the Unix epoch. */
module FileModified {
  import opened Common

  const FileSchemePrefix := "file:"
  const MillisecondsPerSecond := 1000
  const MicrosecondsPerSecond := 1000000
  const MicrosecondsPerMillisecond := 1000

  /** `pattern` occurs in `s` at index `k`. */
  predicate OccursAt(s: string, pattern: string, k: nat)
  {
    k + |pattern| <= |s| && s[k..k + |pattern|] == pattern
  }

  /** First index at or after `from` where `pattern` occurs in `s` (`std::string::find`). */
  function FindFrom(s: string, pattern: string, from: nat): (r: Option<nat>)
    requires from <= |s|
    ensures r.Some? ==> from <= r.value && OccursAt(s, pattern, r.value)
    ensures r.Some? ==> forall k: nat :: from <= k < r.value ==> !OccursAt(s, pattern, k)
    ensures r.None? ==> forall k: nat :: from <= k ==> !OccursAt(s, pattern, k)
    decreases |s| - from
  {
    if from + |pattern| > |s| then None
    else if s[from..from + |pattern|] == pattern then Some(from)
    else if from == |s| then None
    else FindFrom(s, pattern, from + 1)
  }

  /** `base::ReplaceFirstSubstringAfterOffset(&s, 0, pattern, replacement)`. */
  function ReplaceFirst(s: string, pattern: string, replacement: string): string
  {
    match FindFrom(s, pattern, 0)
    case None => s
    case Some(i) => s[..i] + replacement + s[i + |pattern|..]
  }

  /** When `s` starts with `pattern`, the first occurrence is the prefix
      itself, so removing it leaves the rest of `s`. */
  lemma ReplaceFirstOfPrefix(s: string, pattern: string)
    requires StartsWith(s, pattern)
    ensures ReplaceFirst(s, pattern, "") == s[|pattern|..]
  {
    assert s[0..|pattern|] == pattern;
    assert FindFrom(s, pattern, 0) == Some(0);
  }

  /** C++ `/` on a signed integer by a positive divisor: truncation toward zero. */
  function TruncatingDiv(a: int, b: int): int
    requires b > 0
  {
    if a >= 0 then a / b else -((-a) / b)
  }

  /** `since_ms` split into whole seconds (C++ division, toward zero) and the
      remaining milliseconds, which take the sign of `since_ms`. */
  function SplitMilliseconds(sinceMs: int): (r: (int, int))
    ensures r.0 * MillisecondsPerSecond + r.1 == sinceMs
    ensures -MillisecondsPerSecond < r.1 < MillisecondsPerSecond
    ensures sinceMs >= 0 ==> r.1 >= 0
    ensures sinceMs <= 0 ==> r.1 <= 0
  {
    var seconds := TruncatingDiv(sinceMs, MillisecondsPerSecond);
    (seconds, sinceMs - seconds * MillisecondsPerSecond)
  }

  /** For every negative `since_ms` that is not a whole number of seconds,
      C++ division and Dafny's Euclidean division disagree: the seconds are
      one more, and the milliseconds are negative instead of positive. */
  lemma TruncationIsNotEuclidean(sinceMs: int)
    requires sinceMs < 0 && sinceMs % MillisecondsPerSecond != 0
    ensures SplitMilliseconds(sinceMs)
      == (sinceMs / MillisecondsPerSecond + 1, sinceMs % MillisecondsPerSecond - MillisecondsPerSecond)
  {
    var q := sinceMs / MillisecondsPerSecond;
    var r := sinceMs % MillisecondsPerSecond;
    assert sinceMs == q * MillisecondsPerSecond + r && 0 < r < MillisecondsPerSecond;
    assert -sinceMs == (-q - 1) * MillisecondsPerSecond + (MillisecondsPerSecond - r);
    DivisionIsUnique(-sinceMs, -q - 1, MillisecondsPerSecond - r);
  }

  /** Euclidean division by 1000 has a unique quotient. */
  lemma DivisionIsUnique(a: int, q: int, r: int)
    requires a == q * MillisecondsPerSecond + r && 0 <= r < MillisecondsPerSecond
    ensures a / MillisecondsPerSecond == q
  {
  }

  /** The width in bits of `time_t` on the target: 32 on the 32-bit Android
      and iOS targets, 64 on the 64-bit ones. */
  type TimeTWidth = w: nat | w == 32 || w == 64 witness 64

  /** The number of distinct `time_t` values, 2 to the power of the width. */
  function TimeTValues(width: TimeTWidth): (n: nat)
    ensures n == if width == 32 then 0x1_0000_0000 else 0x1_0000_0000_0000_0000
  {
    if width == 32 then 0x1_0000_0000 else 0x1_0000_0000_0000_0000
  }

  /** `x` is a value of a signed `time_t` of the given width. */
  predicate FitsTimeT(x: int, width: TimeTWidth)
  {
    var half: int := TimeTValues(width) / 2;
    -half <= x < half
  }

  /** `x` is a value of `int64_t`, the type of `since_ms`. */
  predicate IsInt64(x: int)
  {
    -0x8000_0000_0000_0000 <= x < 0x8000_0000_0000_0000
  }

  /** The implicit conversion of the `int64_t` seconds to the `time_t`
      parameter of `FromTimeT`: two's-complement wrap-around to the width. */
  function ToTimeT(x: int, width: TimeTWidth): (r: int)
    ensures FitsTimeT(r, width)
    ensures (x - r) % TimeTValues(width) == 0
    ensures FitsTimeT(x, width) ==> r == x
  {
    var n := TimeTValues(width);
    var m := x % n;
    if m < n / 2 then m else m - n
  }

  /** `Time::FromTimeT(seconds) + TimeDelta::FromMilliseconds(milliseconds)`,
      in microseconds. When the whole seconds fit in `time_t` it is the
      instant `since_ms` names, whatever its sign; with a 64-bit `time_t`
      that is every `int64_t` value. */
  function SinceTime(sinceMs: int, width: TimeTWidth): (t: int)
    ensures FitsTimeT(SplitMilliseconds(sinceMs).0, width) ==> t == sinceMs * MicrosecondsPerMillisecond
    ensures width == 64 && IsInt64(sinceMs) ==> t == sinceMs * MicrosecondsPerMillisecond
  {
    var (seconds, milliseconds) := SplitMilliseconds(sinceMs);
    ToTimeT(seconds, width) * MicrosecondsPerSecond + milliseconds * MicrosecondsPerMillisecond
  }

  /** With a 32-bit `time_t`, an instant from 2^31 seconds after the epoch
      (2038-01-19T03:14:08Z) up to 2^32 seconds wraps to 2^32 seconds
      earlier, an instant before 1970. */
  lemma {:induction false} SinceTimeWrapsAfter2038(sinceMs: int)
    requires 0x8000_0000 * MillisecondsPerSecond <= sinceMs < 0x1_0000_0000 * MillisecondsPerSecond
    ensures SinceTime(sinceMs, 32) == sinceMs * MicrosecondsPerMillisecond - 0x1_0000_0000 * MicrosecondsPerSecond
    ensures SinceTime(sinceMs, 32) < 0
  {
    var (seconds, milliseconds) := SplitMilliseconds(sinceMs);
    assert 0x8000_0000 <= seconds < 0x1_0000_0000;
    assert ToTimeT(seconds, 32) == seconds - 0x1_0000_0000;
  }

  /** `DartFileModifiedCallback`. `lastModified` maps each path `GetFileInfo`
      succeeds on to its modification time. A URL without the `file:` scheme,
      or a file that cannot be examined, counts as modified; otherwise the
      file is modified when its time is strictly after the instant rebuilt
      from `since_ms`. */
  function DartFileModified(sourceUrl: string, sinceMs: int, width: TimeTWidth, lastModified: map<string, int>): (modified: bool)
    ensures !StartsWith(sourceUrl, FileSchemePrefix) ==> modified
    ensures StartsWith(sourceUrl, FileSchemePrefix) && sourceUrl[|FileSchemePrefix|..] !in lastModified ==> modified
    ensures StartsWith(sourceUrl, FileSchemePrefix) && sourceUrl[|FileSchemePrefix|..] in lastModified ==>
      (modified <==> lastModified[sourceUrl[|FileSchemePrefix|..]] > SinceTime(sinceMs, width))
  {
    if !StartsWith(sourceUrl, FileSchemePrefix) then true
    else
      var path := ReplaceFirst(sourceUrl, FileSchemePrefix, "");
      ReplaceFirstOfPrefix(sourceUrl, FileSchemePrefix);
      if path !in lastModified then true
      else lastModified[path] > SinceTime(sinceMs, width)
  }

  /** When the whole seconds of `since_ms` fit in `time_t`, a file last
      changed at or before that instant is reported unchanged, and one changed
      even a microsecond later is reported changed. */
  lemma UnchangedExactlyUpToSince(path: string, sinceMs: int, width: TimeTWidth, lastModified: map<string, int>)
    requires path in lastModified
    ensures FitsTimeT(SplitMilliseconds(sinceMs).0, width) ==>
      (!DartFileModified(FileSchemePrefix + path, sinceMs, width, lastModified)
       <==> lastModified[path] <= sinceMs * MicrosecondsPerMillisecond)
  {
    var url := FileSchemePrefix + path;
    assert StartsWith(url, FileSchemePrefix) by { assert url[..|FileSchemePrefix|] == FileSchemePrefix; }
    assert url[|FileSchemePrefix|..] == path;
  }

  /** With a 32-bit `time_t` and `since_ms` past 2038-01-19T03:14:07Z (up to
      2^32 seconds), every file changed at or after the epoch is reported
      modified, however far it lies before `since_ms`. */
  lemma {:induction false} EverythingModifiedAfter2038(path: string, sinceMs: int, lastModified: map<string, int>)
    requires path in lastModified && lastModified[path] >= 0
    requires 0x8000_0000 * MillisecondsPerSecond <= sinceMs < 0x1_0000_0000 * MillisecondsPerSecond
    ensures DartFileModified(FileSchemePrefix + path, sinceMs, 32, lastModified)
  {
    var url := FileSchemePrefix + path;
    assert StartsWith(url, FileSchemePrefix) by { assert url[..|FileSchemePrefix|] == FileSchemePrefix; }
    assert url[|FileSchemePrefix|..] == path;
    SinceTimeWrapsAfter2038(sinceMs);
  }
}
