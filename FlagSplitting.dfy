/** Splitting the value of the `dart-flags` switch into VM flags
    (sky/engine/core/script/dart_init.cc, `InitDartVM`): the string is read
    through a `std::istream_iterator<std::string>`, so each flag is a maximal
    run of non-whitespace characters, whitespace of any length separates
    flags, and leading or trailing whitespace yields nothing. */
module FlagSplitting {
  import opened Common

  /** `isspace` in the "C" locale, which `operator>>` uses to delimit words. */
  predicate IsSpace(c: char)
  {
    c == ' ' || c == '\t' || c == '\n' || c == '\U{000B}' || c == '\U{000C}' || c == '\r'
  }

  /** A flag as one read produces it: non-empty, with no whitespace in it. */
  predicate IsToken(t: string)
  {
    t != [] && forall i :: 0 <= i < |t| ==> !IsSpace(t[i])
  }

  /** The maximal run of non-whitespace characters at the start of `s`. */
  function Word(s: string): (w: string)
    ensures |w| <= |s| && w == s[..|w|]
    ensures forall i :: 0 <= i < |w| ==> !IsSpace(w[i])
    ensures |w| < |s| ==> IsSpace(s[|w|])
    ensures s != [] && !IsSpace(s[0]) ==> |w| > 0
  {
    if s == [] || IsSpace(s[0]) then [] else [s[0]] + Word(s[1..])
  }

  /** The words of `s`, in order: what the loop over the stream iterator collects. */
  function Tokens(s: string): seq<string>
    decreases |s|
  {
    if s == [] then []
    else if IsSpace(s[0]) then Tokens(s[1..])
    else
      var w := Word(s);
      [w] + Tokens(s[|w|..])
  }

  /** Concatenation of a sequence of strings. */
  function Concat(ts: seq<string>): string
  {
    if ts == [] then [] else ts[0] + Concat(ts[1..])
  }

  /** `s` with every whitespace character dropped. */
  function NonSpace(s: string): string
  {
    if s == [] then []
    else (if IsSpace(s[0]) then [] else [s[0]]) + NonSpace(s[1..])
  }

  /** The tokens joined back together with single spaces. */
  function JoinWithSpaces(ts: seq<string>): string
  {
    if ts == [] then []
    else if |ts| == 1 then ts[0]
    else ts[0] + " " + JoinWithSpaces(ts[1..])
  }

  /** A run of non-whitespace characters that ends at whitespace or at the end
      of the string is exactly the word `Word` reads. */
  lemma WordIsMaximalRun(u: string, n: nat)
    requires n <= |u|
    requires forall k :: 0 <= k < n ==> !IsSpace(u[k])
    requires n == |u| || IsSpace(u[n])
    ensures Word(u) == u[..n]
  {
  }

  /** Every flag produced is non-empty and free of whitespace. */
  lemma {:induction false} TokensAreFlags(s: string)
    ensures forall k :: 0 <= k < |Tokens(s)| ==> IsToken(Tokens(s)[k])
    decreases |s|
  {
    if s == [] {
    } else if IsSpace(s[0]) {
      TokensAreFlags(s[1..]);
    } else {
      var w := Word(s);
      TokensAreFlags(s[|w|..]);
      assert Tokens(s) == [w] + Tokens(s[|w|..]);
    }
  }

  /** Dropping the whitespace of `s` splits into its first word and the rest. */
  lemma {:induction false} NonSpaceAfterWord(s: string)
    ensures NonSpace(s) == Word(s) + NonSpace(s[|Word(s)|..])
    decreases |s|
  {
    if s == [] || IsSpace(s[0]) {
      assert Word(s) == [];
      assert s[|Word(s)|..] == s;
    } else {
      var t := s[1..];
      var v := Word(t);
      var w := Word(s);
      NonSpaceAfterWord(t);
      assert w == [s[0]] + v;
      assert s[|w|..] == t[|v|..];
      calc {
        NonSpace(s);
        [s[0]] + NonSpace(t);
        [s[0]] + (v + NonSpace(t[|v|..]));
        { AppendAssoc([s[0]], v, NonSpace(t[|v|..])); }
        w + NonSpace(s[|w|..]);
      }
    }
  }

  /** Splitting keeps every non-whitespace character, in order, and no other:
      the flags concatenated are the switch value with its whitespace removed. */
  lemma {:induction false} TokensKeepEveryCharacter(s: string)
    ensures Concat(Tokens(s)) == NonSpace(s)
    decreases |s|
  {
    if s == [] {
    } else if IsSpace(s[0]) {
      TokensKeepEveryCharacter(s[1..]);
    } else {
      var w := Word(s);
      TokensKeepEveryCharacter(s[|w|..]);
      NonSpaceAfterWord(s);
      assert Tokens(s) == [w] + Tokens(s[|w|..]);
      assert Concat(Tokens(s)) == w + Concat(Tokens(s[|w|..]));
    }
  }

  /** Splitting undoes joining with spaces: flags that contain no whitespace
      come back one for one and in their original order. */
  lemma {:induction false} TokensOfJoin(ts: seq<string>)
    requires forall k :: 0 <= k < |ts| ==> IsToken(ts[k])
    ensures Tokens(JoinWithSpaces(ts)) == ts
    decreases |ts|
  {
    if ts == [] {
    } else {
      var t := ts[0];
      var rest: string := if |ts| == 1 then [] else " " + JoinWithSpaces(ts[1..]);
      var s := t + rest;
      assert s == JoinWithSpaces(ts);
      WordIsMaximalRun(s, |t|);
      assert s[..|t|] == t;
      assert s[|t|..] == rest;
      if |ts| > 1 {
        TokensOfJoin(ts[1..]);
        assert rest[1..] == JoinWithSpaces(ts[1..]);
        assert Tokens(rest) == Tokens(rest[1..]);
      }
    }
  }

  /** Whitespace in front of the remaining input yields no flag. */
  lemma SkipSpace(s: string, i: nat)
    requires i < |s| && IsSpace(s[i])
    ensures Tokens(s[i..]) == Tokens(s[i + 1..])
  {
    assert s[i..][1..] == s[i + 1..];
  }

  /** A maximal run of non-whitespace in the remaining input is the next flag. */
  lemma TakeWord(s: string, i: nat, j: nat)
    requires i < j <= |s|
    requires forall k :: i <= k < j ==> !IsSpace(s[k])
    requires j == |s| || IsSpace(s[j])
    ensures Tokens(s[i..]) == [s[i..j]] + Tokens(s[j..])
  {
    var u := s[i..];
    WordIsMaximalRun(u, j - i);
    assert u[..j - i] == s[i..j];
    assert u[j - i..] == s[j..];
  }

  /** Reads the words of `s` one after another, skipping whitespace first and
      then taking a maximal run of other characters, as `operator>>` does. */
  method SplitFlags(s: string) returns (flags: seq<string>)
    ensures flags == Tokens(s)
    ensures forall k :: 0 <= k < |flags| ==> IsToken(flags[k])
  {
    flags := [];
    var i := 0;
    while i < |s|
      invariant 0 <= i <= |s|
      invariant flags + Tokens(s[i..]) == Tokens(s)
    {
      if IsSpace(s[i]) {
        SkipSpace(s, i);
        i := i + 1;
      } else {
        var j := ScanWord(s, i);
        TakeWord(s, i, j);
        AppendAssoc(flags, [s[i..j]], Tokens(s[j..]));
        flags := flags + [s[i..j]];
        i := j;
      }
    }
    TokensAreFlags(s);
  }

  /** The end of the run of non-whitespace characters that starts at `i`. */
  method ScanWord(s: string, i: nat) returns (j: nat)
    requires i < |s|
    ensures i <= j <= |s|
    ensures forall k :: i <= k < j ==> !IsSpace(s[k])
    ensures j == |s| || IsSpace(s[j])
  {
    j := i;
    while j < |s| && !IsSpace(s[j])
      invariant i <= j <= |s|
      invariant forall k :: i <= k < j ==> !IsSpace(s[k])
    {
      j := j + 1;
    }
  }
}
