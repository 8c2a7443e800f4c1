/** What both experiment classes share: the configuration they read, the
    voltages `numpy.linspace` gives the sweep, and the `pathlib` file-name
    rules `save_data` uses to pick a free file name. */
module Scan {
  import opened Wrappers
  import opened PyText

  /** The `DAQ` section of the configuration; `resistance` (ohms) is only
      read by the sweep that measures current. */
  datatype DaqConfig = DaqConfig(name: string, port: string, resistance: Option<real>)

  /** The `Scan` section: voltages in V, the delay in s. */
  datatype ScanConfig = ScanConfig(start: real, stop: real, numSteps: int, delay: real,
                                   channelIn: int, channelOut: int)

  /** The `Saving` section. */
  datatype SavingConfig = SavingConfig(folder: string, filename: string)

  datatype Config = Config(daq: DaqConfig, scan: ScanConfig, saving: SavingConfig)

  /** What `save_data` writes: the table, with its header line, to the data
      file, and the configuration it ran with to the metadata file. Both are
      names inside the dated saving folder. */
  datatype Saved = Saved(dataFile: string, header: string, rows: seq<(real, real)>,
                         metadataFile: string, metadata: Config)

  // ---------------------------------------------------------------------
  // numpy.linspace
  // ---------------------------------------------------------------------

  /** The distance between neighbouring samples of an `n`-point sweep. */
  function LinspaceStep(start: real, stop: real, n: nat): real
    requires n > 1
  {
    (stop - start) / (n - 1) as real
  }

  /** `numpy.linspace(start, stop, n)`: `n` evenly spaced values from `start`
      to `stop`, both included; a single sample is `start`. */
  function Linspace(start: real, stop: real, n: nat): (r: seq<real>)
    ensures |r| == n
    ensures n > 0 ==> r[0] == start
    ensures n > 1 ==> r[n - 1] == stop
  {
    if n <= 1 then seq(n, _ => start)
    else
      var step := LinspaceStep(start, stop, n);
      assert (n - 1) as real * step == stop - start;
      seq(n, k requires 0 <= k < n => start + k as real * step)
  }

  /** Neighbouring samples are one step `(stop - start) / (n - 1)` apart. */
  lemma LinspaceEvenlySpaced(start: real, stop: real, n: nat, k: nat)
    requires 1 < n && k + 1 < n
    ensures Linspace(start, stop, n)[k + 1] - Linspace(start, stop, n)[k] == LinspaceStep(start, stop, n)
  {
    var step := LinspaceStep(start, stop, n);
    assert (k + 1) as real * step == k as real * step + step;
  }

  /** A rising sweep never goes down. */
  lemma LinspaceRising(start: real, stop: real, n: nat, j: nat, k: nat)
    requires start <= stop && j <= k < n
    ensures Linspace(start, stop, n)[j] <= Linspace(start, stop, n)[k]
  {
    if n > 1 {
      var step := LinspaceStep(start, stop, n);
      var r := Linspace(start, stop, n);
      assert r[j] == start + j as real * step && r[k] == start + k as real * step;
      assert step >= 0.0;
      assert k as real * step - j as real * step == (k - j) as real * step;
      assert (k - j) as real * step >= 0.0;
    }
  }

  // ---------------------------------------------------------------------
  // pathlib names
  // ---------------------------------------------------------------------

  /** `name.rfind('.')`: the position of the last dot, or -1. */
  function LastDot(name: string): (i: int)
    ensures -1 <= i < |name|
    ensures i >= 0 ==> name[i] == '.'
    ensures forall j :: i < j < |name| ==> name[j] != '.'
  {
    if name == [] then -1
    else if name[|name| - 1] == '.' then |name| - 1
    else LastDot(name[..|name| - 1])
  }

  /** `PurePath.suffix`: from the last dot on, unless that dot opens the
      name or ends it. */
  function Suffix(name: string): (r: string)
    ensures |r| <= |name| && r == name[|name| - |r|..]
    ensures r == "" || (|r| >= 2 && r[0] == '.' && forall j :: 0 < j < |r| ==> r[j] != '.')
    ensures r != "" <==> 0 < LastDot(name) < |name| - 1
    ensures r != "" ==> r == name[LastDot(name)..]
  {
    var i := LastDot(name);
    if 0 < i < |name| - 1 then name[i..] else ""
  }

  /** `PurePath.stem`: the name without its suffix. */
  function Stem(name: string): (r: string)
    ensures |r| <= |name| && r == name[..|r|]
    ensures r + Suffix(name) == name
  {
    var i := LastDot(name);
    if 0 < i < |name| - 1 then name[..i] else name
  }

  /** `PurePath.with_suffix(suffix)`: the suffix replaced, or added when
      there was none. */
  function WithSuffix(name: string, suffix: string): (r: string)
    ensures |r| == |name| - |Suffix(name)| + |suffix|
    ensures Suffix(name) == "" ==> r == name + suffix
    ensures r[..|Stem(name)|] == Stem(name) && r[|Stem(name)|..] == suffix
  {
    StemSuffix(name);
    Stem(name) + suffix
  }

  /** A name is its stem followed by its suffix, and a suffix is either empty
      or a dot followed by at least one character and no further dot. */
  lemma StemSuffix(name: string)
    ensures Stem(name) + Suffix(name) == name
    ensures Suffix(name) == "" || (|Suffix(name)| >= 2 && Suffix(name)[0] == '.'
              && forall j :: 0 < j < |Suffix(name)| ==> Suffix(name)[j] != '.')
  {
  }

  /** A file name `save_data` accepts: one path component, not `.` or `..`. */
  predicate PlainName(name: string)
  {
    name != "" && name != "." && name != ".." && forall j :: 0 <= j < |name| ==> name[j] != '/'
  }

  /** `f'{stem}_{i:04d}{suffix}'`. */
  function Numbered(stem: string, suffix: string, i: nat): (s: string)
    ensures |s| >= |stem| + 5 + |suffix|
    ensures s[..|stem|] == stem && s[|stem|] == '_' && s[|s| - |suffix|..] == suffix
  {
    stem + "_" + Pad4(i) + suffix
  }

  /** The field between the stem's `_` and the suffix of a numbered name is
      a digit group that `int()` reads back as the number. */
  lemma NumberedField(stem: string, suffix: string, i: nat)
    ensures var s := Numbered(stem, suffix, i);
      && IsDigitGroup(s[|stem| + 1..|s| - |suffix|])
      && ParseInt(s[|stem| + 1..|s| - |suffix|]) == Some(i)
  {
    var s := Numbered(stem, suffix, i);
    assert s[|stem| + 1..|s| - |suffix|] == Pad4(i);
    Pad4RoundTrip(i);
  }

  /** Two numbered names with the same stem and suffix are the same name
      only for the same number. */
  lemma NumberedInjective(stem: string, suffix: string, i: nat, j: nat)
    requires Numbered(stem, suffix, i) == Numbered(stem, suffix, j)
    ensures i == j
  {
    var s, t := Numbered(stem, suffix, i), Numbered(stem, suffix, j);
    assert |Pad4(i)| == |Pad4(j)|;
    assert Pad4(i) == s[|stem| + 1..|s| - |suffix|];
    assert Pad4(j) == t[|stem| + 1..|t| - |suffix|];
    Pad4Injective(i, j);
  }

  /** If the numbered names 1..m are all taken, at least m names are taken. */
  lemma {:induction false} AllTakenBound(stem: string, suffix: string, m: nat, taken: set<string>)
    requires forall j :: 1 <= j <= m ==> Numbered(stem, suffix, j) in taken
    ensures m <= |taken|
    decreases m
  {
    if m > 0 {
      var rest := taken - {Numbered(stem, suffix, m)};
      forall j | 1 <= j <= m - 1
        ensures Numbered(stem, suffix, j) in rest
      {
        if Numbered(stem, suffix, j) == Numbered(stem, suffix, m) {
          NumberedInjective(stem, suffix, j, m);
        }
      }
      AllTakenBound(stem, suffix, m - 1, rest);
    }
  }

  /** `n` is the number a numbering `save_data` settles on: the smallest
      `n >= 1` whose numbered name is not taken. */
  ghost predicate FirstFree(stem: string, suffix: string, taken: set<string>, n: nat)
  {
    && 1 <= n && Numbered(stem, suffix, n) !in taken
    && forall j :: 1 <= j < n ==> Numbered(stem, suffix, j) in taken
  }

  /** At most one number is the first free one. */
  lemma FirstFreeUnique(stem: string, suffix: string, taken: set<string>, n: nat, m: nat)
    requires FirstFree(stem, suffix, taken, n) && FirstFree(stem, suffix, taken, m)
    ensures n == m
  {
  }

  /** The dot at `i` is the last one when no dot follows it. */
  lemma LastDotAt(name: string, i: nat)
    requires i < |name| && name[i] == '.'
    requires forall j :: i < j < |name| ==> name[j] != '.'
    ensures LastDot(name) == i
  {
  }

  /** pathlib's suffix rule at the last dot `k`: when that dot neither
      opens nor ends the name, the suffix runs from it and the stem stops
      before it; otherwise (`.bashrc`, `data.`) there is no suffix and the
      stem is the whole name. */
  lemma SuffixAtLastDot(name: string, k: int)
    requires 0 <= k < |name| && name[k] == '.' && forall j :: k < j < |name| ==> name[j] != '.'
    ensures 0 < k < |name| - 1 ==> Suffix(name) == name[k..] && Stem(name) == name[..k]
    ensures k == 0 || k == |name| - 1 ==> Suffix(name) == "" && Stem(name) == name
  {
    LastDotAt(name, k);
  }

  /** The last dot of `u + t` is the last dot of `t`, when `t` has one. */
  lemma LastDotAppend(u: string, t: string)
    requires LastDot(t) >= 0
    ensures LastDot(u + t) == |u| + LastDot(t)
  {
    var i, k := LastDot(u + t), |u| + LastDot(t);
    assert (u + t)[k] == '.';
    assert forall j :: k < j < |u + t| ==> (u + t)[j] == t[j - |u|];
  }

  /** Numbering a name that has a suffix keeps the suffix: data goes to
      `stem_NNNN.suffix`, metadata to `stem_NNNN.yml`. */
  lemma NumberedKeepsSuffix(name: string, i: nat)
    requires Suffix(name) != ""
    ensures Suffix(Numbered(Stem(name), Suffix(name), i)) == Suffix(name)
    ensures WithSuffix(Numbered(Stem(name), Suffix(name), i), ".yml") == Stem(name) + "_" + Pad4(i) + ".yml"
  {
    StemSuffix(name);
    var sfx := Suffix(name);
    var head := Stem(name) + "_" + Pad4(i);
    LastDotAt(sfx, 0);
    LastDotAppend(head, sfx);
    assert Numbered(Stem(name), sfx, i) == head + sfx;
    assert (head + sfx)[..|head|] == head;
    assert (head + sfx)[|head|..] == sfx;
  }

  /** Numbering a name without any dot gives a name without a dot:
      data goes to `name_NNNN`, metadata to `name_NNNN.yml`. */
  lemma NumberedWithoutDot(name: string, i: nat)
    requires forall j :: 0 <= j < |name| ==> name[j] != '.'
    ensures Suffix(name) == "" && Stem(name) == name
    ensures WithSuffix(Numbered(name, "", i), ".yml") == name + "_" + Pad4(i) + ".yml"
  {
    var s := Numbered(name, "", i);
    assert s == name + "_" + Pad4(i);
    assert forall j :: 0 <= j < |s| ==> s[j] != '.' by {
      forall j | 0 <= j < |s|
        ensures s[j] != '.'
      {
        if j > |name| {
          assert s[j] == Pad4(i)[j - |name| - 1];
        }
      }
    }
  }

  /** With a `.yml` data file the metadata file is the data file itself, so
      the metadata written second replaces the table. */
  lemma YmlDataIsItsOwnMetadata(stem: string, i: nat)
    requires stem != "" && forall j :: 0 <= j < |stem| ==> stem[j] != '.'
    ensures WithSuffix(Numbered(stem, ".yml", i), ".yml") == Numbered(stem, ".yml", i)
  {
    var name := stem + ".yml";
    LastDotAt(".yml", 0);
    assert LastDot(name) == |stem| by {
      LastDotAppend(stem, ".yml");
    }
    assert Suffix(name) == ".yml" && Stem(name) == stem;
    NumberedKeepsSuffix(name, i);
  }
}
