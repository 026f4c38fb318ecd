/**
  The `dotnet build` build step: its settings, how it appends its command
  line, and what that command line looks like.
 */
module MSBuild {
  import opened Text
  import opened Arguments

  /** The settings of a `dotnet build` step, as its fields hold them. */
  datatype BuildSettings = BuildSettings(
    force: bool,
    framework: Option<string>,
    noDependencies: bool,
    noIncremental: bool,
    noRestore: bool,
    runtime: Option<string>,
    targets: Option<string>,
    versionSuffix: Option<string>)

  /** A freshly created step: every flag false, every string null. */
  const Defaults := BuildSettings(false, None, false, false, false, None, None, None)

  /** What the setters can leave in the fields. */
  predicate WellFormed(s: BuildSettings) {
    && IsStoredScalar(s.framework)
    && IsStoredScalar(s.runtime)
    && IsStoredList(s.targets)
    && IsStoredScalar(s.versionSuffix)
  }

  /** The boolean options with their flag tokens, in the order they are emitted. */
  function FlagList(s: BuildSettings): seq<(bool, string)> {
    [(s.force, "--force"), (s.noDependencies, "--no-dependencies"),
     (s.noIncremental, "--no-incremental"), (s.noRestore, "--no-restore")]
  }

  /** The tokens of the flags in `flags` that are set, in order. */
  function SetFlags(flags: seq<(bool, string)>): seq<string> {
    if flags == [] then [] else FlagIf(flags[0].0, flags[0].1) + SetFlags(flags[1..])
  }

  /** How many of `flags` are set. */
  function CountSet(flags: seq<(bool, string)>): nat {
    if flags == [] then 0 else (if flags[0].0 then 1 else 0) + CountSet(flags[1..])
  }

  /** The boolean options, each as its flag when set, in their fixed order. */
  function FlagArgs(s: BuildSettings): seq<string> {
    SetFlags(FlagList(s))
  }

  /** The target framework moniker (`-f:`) and runtime identifier (`-r:`), when set. */
  function OptionArgs(s: BuildSettings): seq<string> {
    Prefixed("-f:", Present(s.framework)) + Prefixed("-r:", Present(s.runtime))
  }

  /** One `-t:` token per target. */
  function TargetArgs(targets: Option<string>): seq<string> {
    Prefixed("-t:", Items(targets))
  }

  /** The version suffix, as an option followed by its value. */
  function VersionSuffixArgs(v: Option<string>): seq<string> {
    if v.Some? then ["--version-suffix", v.value] else []
  }

  /** The tokens the step adds after those of the MSBuild base command. */
  function OwnArgs(s: BuildSettings): seq<string> {
    FlagArgs(s) + OptionArgs(s) + TargetArgs(s.targets) + VersionSuffixArgs(s.versionSuffix)
  }

  /**
    The whole command line the step assembles: `build`, then whatever the
    MSBuild base command contributes (`base`), then the step's own options.
   */
  function BuildArgs(s: BuildSettings, base: seq<string>): (r: seq<string>)
    ensures |r| == 1 + |base| + |OwnArgs(s)|
    ensures r[0] == "build"
    ensures r[1..1 + |base|] == base
    ensures r[1 + |base|..] == OwnArgs(s)
  {
    ["build"] + base + OwnArgs(s)
  }

  /** The `dotnet build` build step. */
  class Build {
    var force: bool
    var framework: Option<string>
    var noDependencies: bool
    var noIncremental: bool
    var noRestore: bool
    var runtime: Option<string>
    var targets: Option<string>
    var versionSuffix: Option<string>

    function Settings(): BuildSettings
      reads this
    {
      BuildSettings(force, framework, noDependencies, noIncremental, noRestore, runtime, targets, versionSuffix)
    }

    ghost predicate Valid()
      reads this
    {
      WellFormed(Settings())
    }

    constructor ()
      ensures Valid() && Settings() == Defaults
    {
      force, framework, noDependencies, noIncremental := false, None, false, false;
      noRestore, runtime, targets, versionSuffix := false, None, None, None;
    }

    method SetForce(force: bool)
      modifies this
      ensures Settings() == old(Settings()).(force := force)
    {
      this.force := force;
    }

    method SetFramework(framework: Option<string>)
      requires Valid()
      modifies this
      ensures Valid()
      ensures Settings() == old(Settings()).(framework := FixEmptyAndTrim(framework))
    {
      this.framework := FixEmptyAndTrim(framework);
    }

    method SetNoDependencies(noDependencies: bool)
      modifies this
      ensures Settings() == old(Settings()).(noDependencies := noDependencies)
    {
      this.noDependencies := noDependencies;
    }

    method SetNoIncremental(noIncremental: bool)
      modifies this
      ensures Settings() == old(Settings()).(noIncremental := noIncremental)
    {
      this.noIncremental := noIncremental;
    }

    method SetNoRestore(noRestore: bool)
      modifies this
      ensures Settings() == old(Settings()).(noRestore := noRestore)
    {
      this.noRestore := noRestore;
    }

    method SetRuntime(runtime: Option<string>)
      requires Valid()
      modifies this
      ensures Valid()
      ensures Settings() == old(Settings()).(runtime := FixEmptyAndTrim(runtime))
    {
      this.runtime := FixEmptyAndTrim(runtime);
    }

    /**
      Stores the targets. `normalized` is what `DotNetUtils.normalizeList`
      returned for the user's text: null, or items joined by single spaces.
     */
    method SetTargets(normalized: Option<string>)
      requires Valid()
      requires IsStoredList(normalized)
      modifies this
      ensures Valid()
      ensures Settings() == old(Settings()).(targets := normalized)
    {
      this.targets := normalized;
    }

    method SetVersionSuffix(versionSuffix: Option<string>)
      requires Valid()
      modifies this
      ensures Valid()
      ensures Settings() == old(Settings()).(versionSuffix := FixEmptyAndTrim(versionSuffix))
    {
      this.versionSuffix := FixEmptyAndTrim(versionSuffix);
    }

    /**
      Appends this step's command line to `args`; `base` is what the MSBuild
      base command appends, which this model does not look into.
     */
    method AddCommandLineArguments(args: ArgumentListBuilder, base: seq<string>)
      modifies args
      ensures args.args == old(args.args) + BuildArgs(old(Settings()), base)
    {
      var s := Settings();
      ghost var start := args.args;
      args.Add("build");
      args.AddAll(base);
      ghost var m0 := args.args;
      AddFlags(args, s);
      ghost var m1 := args.args;
      AddOptions(args, s);
      ghost var m2 := args.args;
      AddTargets(args, s.targets);
      ghost var m3 := args.args;
      if s.versionSuffix.Some? {
        // the two-argument `add` appends each argument in turn
        args.AddAll(["--version-suffix", s.versionSuffix.value]);
      }
      assert args.args == m3 + VersionSuffixArgs(s.versionSuffix);
      Appended4(m0, m1, m2, m3, args.args,
                FlagArgs(s), OptionArgs(s), TargetArgs(s.targets), VersionSuffixArgs(s.versionSuffix));
      assert m0 == start + (["build"] + base);
      AfterHead(start, ["build"] + base, m0, args.args, OwnArgs(s));
    }
  }

  /** The four `if (flag) args.add(...)` statements, in source order. */
  method AddFlags(args: ArgumentListBuilder, s: BuildSettings)
    modifies args
    ensures args.args == old(args.args) + FlagArgs(s)
  {
    ghost var m0 := args.args;
    if s.force {
      args.Add("--force");
    }
    ghost var m1 := args.args;
    assert m1 == m0 + FlagIf(s.force, "--force");
    if s.noDependencies {
      args.Add("--no-dependencies");
    }
    ghost var m2 := args.args;
    assert m2 == m1 + FlagIf(s.noDependencies, "--no-dependencies");
    if s.noIncremental {
      args.Add("--no-incremental");
    }
    ghost var m3 := args.args;
    assert m3 == m2 + FlagIf(s.noIncremental, "--no-incremental");
    if s.noRestore {
      args.Add("--no-restore");
    }
    assert args.args == m3 + FlagIf(s.noRestore, "--no-restore");
    FlagArgsInOrder(s);
    Appended4(m0, m1, m2, m3, args.args, FlagIf(s.force, "--force"), FlagIf(s.noDependencies, "--no-dependencies"),
      FlagIf(s.noIncremental, "--no-incremental"), FlagIf(s.noRestore, "--no-restore"));
  }

  /** The flag segment, one optional flag after the other. */
  lemma FlagArgsInOrder(s: BuildSettings)
    ensures FlagArgs(s) == FlagIf(s.force, "--force") + FlagIf(s.noDependencies, "--no-dependencies")
      + FlagIf(s.noIncremental, "--no-incremental") + FlagIf(s.noRestore, "--no-restore")
  {
    var flags := FlagList(s);
    assert SetFlags(flags[3..]) == FlagIf(s.noRestore, "--no-restore") + SetFlags([]);
    assert SetFlags(flags[2..]) == FlagIf(s.noIncremental, "--no-incremental") + SetFlags(flags[3..]);
    assert SetFlags(flags[1..]) == FlagIf(s.noDependencies, "--no-dependencies") + SetFlags(flags[2..]);
    var a, b, c, d := FlagIf(s.force, "--force"), FlagIf(s.noDependencies, "--no-dependencies"),
      FlagIf(s.noIncremental, "--no-incremental"), FlagIf(s.noRestore, "--no-restore");
    Regroup4(a, b, c, d, []);
    assert a + b + c + d + [] == a + b + c + d;
  }

  /** The framework and runtime options, each added only when set. */
  method AddOptions(args: ArgumentListBuilder, s: BuildSettings)
    modifies args
    ensures args.args == old(args.args) + OptionArgs(s)
  {
    ghost var m0 := args.args;
    if s.framework.Some? {
      args.Add("-f:" + s.framework.value);
    }
    ghost var m1 := args.args;
    assert m1 == m0 + Prefixed("-f:", Present(s.framework));
    if s.runtime.Some? {
      args.Add("-r:" + s.runtime.value);
    }
    assert args.args == m1 + Prefixed("-r:", Present(s.runtime));
  }

  /** One `-t:` token for each piece of the stored targets split at spaces. */
  method AddTargets(args: ArgumentListBuilder, targets: Option<string>)
    modifies args
    ensures args.args == old(args.args) + TargetArgs(targets)
  {
    if targets.Some? {
      ghost var m0 := args.args;
      var pieces := Split(targets.value);
      for i := 0 to |pieces|
        invariant args.args == m0 + Prefixed("-t:", pieces[..i])
      {
        assert pieces[..i + 1] == pieces[..i] + [pieces[i]];
        args.Add("-t:" + pieces[i]);
      }
      assert pieces[..|pieces|] == pieces;
    }
  }

  // ---------------------------------------------------------------------
  // What the command line looks like

  /** A default step with nothing from the base command runs plain `build`. */
  lemma DefaultsBuildOnly()
    ensures BuildArgs(Defaults, []) == ["build"]
  {
  }

  /** The four boolean options of the step, in the order they are emitted. */
  datatype BuildFlag = Force | NoDependencies | NoIncremental | NoRestore

  function FlagToken(f: BuildFlag): string {
    match f
    case Force => "--force"
    case NoDependencies => "--no-dependencies"
    case NoIncremental => "--no-incremental"
    case NoRestore => "--no-restore"
  }

  function WithFlag(s: BuildSettings, f: BuildFlag, b: bool): BuildSettings {
    match f
    case Force => s.(force := b)
    case NoDependencies => s.(noDependencies := b)
    case NoIncremental => s.(noIncremental := b)
    case NoRestore => s.(noRestore := b)
  }

  /** Where `f` stands in `FlagList`. */
  function FlagIndex(f: BuildFlag): nat {
    match f
    case Force => 0
    case NoDependencies => 1
    case NoIncremental => 2
    case NoRestore => 3
  }

  /** How many of the flags emitted before `f` are set. */
  function FlagsBefore(s: BuildSettings, f: BuildFlag): nat {
    CountSet(FlagList(s)[..FlagIndex(f)])
  }

  /**
    Setting the `i`-th flag of a list inserts its token after those of the
    set flags before it, and changes nothing else.
   */
  lemma {:induction false} SetFlagsToggle(flags: seq<(bool, string)>, i: nat, t: string)
    requires i < |flags|
    ensures var off := SetFlags(flags[i := (false, t)]);
            var k := CountSet(flags[..i]);
            k <= |off| && SetFlags(flags[i := (true, t)]) == off[..k] + [t] + off[k..]
  {
    var off, on := flags[i := (false, t)], flags[i := (true, t)];
    if i == 0 {
      assert off[1..] == on[1..];
      assert SetFlags(off) == [] + SetFlags(off[1..]);
    } else {
      assert off[1..] == flags[1..][i - 1 := (false, t)];
      assert on[1..] == flags[1..][i - 1 := (true, t)];
      assert flags[..i][1..] == flags[1..][..i - 1];
      SetFlagsToggle(flags[1..], i - 1, t);
      var head := FlagIf(flags[0].0, flags[0].1);
      var rest := SetFlags(off[1..]);
      var k := CountSet(flags[1..][..i - 1]);
      assert SetFlags(off) == head + (rest[..k] + rest[k..]);
      assert SetFlags(on) == head + (rest[..k] + [t] + rest[k..]);
      assert CountSet(flags[..i]) == |head| + k;
      Spliced(head, rest[..k], rest[k..], t, CountSet(flags[..i]), SetFlags(off), SetFlags(on));
    }
  }

  /** Inserting `x` between `p` and `q` after a head `h`, seen from the outside. */
  lemma Spliced<T>(h: seq<T>, p: seq<T>, q: seq<T>, x: T, n: nat, off: seq<T>, on: seq<T>)
    requires n == |h| + |p| && off == h + (p + q) && on == h + (p + [x] + q)
    ensures n <= |off| && on == off[..n] + [x] + off[n..]
  {
    assert off == (h + p) + q;
    assert off[..n] == h + p;
    assert off[n..] == q;
  }

  /** Inserting `x` between `p` and `q` inside a longer sequence, seen from the outside. */
  lemma SplicedAt<T>(h: seq<T>, p: seq<T>, q: seq<T>, r: seq<T>, x: T)
    ensures var off := h + (p + q) + r;
            |h| + |p| <= |off|
            && h + (p + [x] + q) + r == off[..|h| + |p|] + [x] + off[|h| + |p|..]
  {
    var off := h + (p + q) + r;
    assert off == (h + p) + (q + r);
    assert off[..|h| + |p|] == h + p;
    assert off[|h| + |p|..] == q + r;
  }

  /** Within the flags, turning one on inserts its token after the set flags that precede it. */
  lemma FlagArgsToggle(s: BuildSettings, f: BuildFlag)
    ensures var off := FlagArgs(WithFlag(s, f, false));
            var k := FlagsBefore(s, f);
            k <= |off| && FlagArgs(WithFlag(s, f, true)) == off[..k] + [FlagToken(f)] + off[k..]
  {
    var i := FlagIndex(f);
    var flags := FlagList(s);
    assert FlagList(WithFlag(s, f, false)) == flags[i := (false, FlagToken(f))];
    assert FlagList(WithFlag(s, f, true)) == flags[i := (true, FlagToken(f))];
    SetFlagsToggle(flags, i, FlagToken(f));
  }

  /**
    Turning one boolean option on inserts exactly its flag token, at the
    place the fixed order gives it, and leaves every other token where it was.
   */
  lemma BuildFlagToggle(s: BuildSettings, base: seq<string>, f: BuildFlag, n: nat)
    requires n == 1 + |base| + FlagsBefore(s, f)
    ensures var off := BuildArgs(WithFlag(s, f, false), base);
            var on := BuildArgs(WithFlag(s, f, true), base);
            n <= |off| && on == off[..n] + [FlagToken(f)] + off[n..]
  {
    var sOff, sOn := WithFlag(s, f, false), WithFlag(s, f, true);
    var h := ["build"] + base;
    var o, t, v := OptionArgs(s), TargetArgs(s.targets), VersionSuffixArgs(s.versionSuffix);
    var fOff, fOn := FlagArgs(sOff), FlagArgs(sOn);
    WithFlagKeepsRest(s, f, false, base);
    WithFlagKeepsRest(s, f, true, base);
    FlagArgsToggle(s, f);
    InsertBeforeRest(h, fOff, fOn, o, t, v, FlagsBefore(s, f), n, FlagToken(f), BuildArgs(sOff, base), BuildArgs(sOn, base));
  }

  /** Changing a flag leaves every other segment of the command line as it was. */
  lemma WithFlagKeepsRest(s: BuildSettings, f: BuildFlag, b: bool, base: seq<string>)
    ensures var w := WithFlag(s, f, b);
            BuildArgs(w, base)
            == ["build"] + base + (FlagArgs(w) + OptionArgs(s) + TargetArgs(s.targets) + VersionSuffixArgs(s.versionSuffix))
  {
  }

  /** A token inserted into the flags lands at the same place, shifted by the head, in the whole line. */
  lemma InsertBeforeRest<T>(h: seq<T>, off: seq<T>, on: seq<T>, o: seq<T>, t: seq<T>, v: seq<T>, k: nat, n: nat, x: T,
                            wholeOff: seq<T>, wholeOn: seq<T>)
    requires k <= |off| && on == off[..k] + [x] + off[k..]
    requires n == |h| + k
    requires wholeOff == h + (off + o + t + v) && wholeOn == h + (on + o + t + v)
    ensures n <= |wholeOff| && wholeOn == wholeOff[..n] + [x] + wholeOff[n..]
  {
    var r := o + t + v;
    Regroup5(h, off, o, t, v);
    Regroup5(h, on, o, t, v);
    assert off == off[..k] + off[k..];
    SplicedAt(h, off[..k], off[k..], r, x);
  }

  /**
    One `-t:` token per target, in the order the targets were given, right
    after the framework and runtime tokens; after them, only the version
    suffix pair (when a suffix is set), which therefore ends the command line.
   */
  lemma BuildTargetsThenSuffix(s: BuildSettings, base: seq<string>)
    ensures var r := BuildArgs(s, base);
            var items := Items(s.targets);
            var k := |r| - |items| - |VersionSuffixArgs(s.versionSuffix)|;
            && 1 + |base| <= k
            && r[k..k + |items|] == Prefixed("-t:", items)
            && r[k + |items|..] == VersionSuffixArgs(s.versionSuffix)
  {
    var r := BuildArgs(s, base);
    var items := Items(s.targets);
    var h := ["build"] + base;
    var f, o, t, v := FlagArgs(s), OptionArgs(s), TargetArgs(s.targets), VersionSuffixArgs(s.versionSuffix);
    assert r == h + (f + o + t + v);
    Layout(h, f, o, t, v);
    var k := |h| + |f| + |o|;
    assert |t| == |items|;
    assert |r| - |items| - |v| == k;
    assert r[k + |items|..] == v;
  }

  /** Where the last two segments of a command line sit. */
  lemma Layout<T>(h: seq<T>, f: seq<T>, o: seq<T>, t: seq<T>, v: seq<T>)
    ensures var r := h + (f + o + t + v);
            var k := |h| + |f| + |o|;
            && |r| == k + |t| + |v|
            && r[k..k + |t|] == t
            && r[k + |t|..] == v
  {
    var r := h + (f + o + t + v);
    var k := |h| + |f| + |o|;
    assert r == (h + f + o) + t + v;
    assert r[k..k + |t|] == t;
    assert r[k + |t|..] == v;
  }

  /** A set version suffix ends the command line as two separate tokens. */
  lemma VersionSuffixLast(s: BuildSettings, base: seq<string>)
    requires s.versionSuffix.Some?
    ensures var r := BuildArgs(s, base);
            |r| >= 3 && r[|r| - 2] == "--version-suffix" && r[|r| - 1] == s.versionSuffix.value
  {
    BuildTargetsThenSuffix(s, base);
    var r := BuildArgs(s, base);
    assert r[|r| - 2..] == ["--version-suffix", s.versionSuffix.value];
  }

  // ---------------------------------------------------------------------
  // Reading the command line back

  /** Reads the four optional flags, in their fixed order, off the front of `t`. */
  function TakeFlags(t: seq<string>): ((bool, bool, bool, bool), seq<string>) {
    var (force, t1) := TakeFlag(t, "--force");
    var (noDependencies, t2) := TakeFlag(t1, "--no-dependencies");
    var (noIncremental, t3) := TakeFlag(t2, "--no-incremental");
    var (noRestore, t4) := TakeFlag(t3, "--no-restore");
    ((force, noDependencies, noIncremental, noRestore), t4)
  }

  /** Reads the framework, the runtime, the targets and the version suffix; `None` if tokens are left over. */
  function DecodeOptions(t: seq<string>): Option<(Option<string>, Option<string>, seq<string>, Option<string>)> {
    var (framework, t1) := TakePrefixed(t, "-f:");
    var (runtime, t2) := TakePrefixed(t1, "-r:");
    var (targets, t3) := TakeAllPrefixed(t2, "-t:");
    var (versionSuffix, t4) := TakePair(t3, "--version-suffix");
    if t4 != [] then None else Some((framework, runtime, targets, versionSuffix))
  }

  /** Reads the step's own tokens back into settings; `None` if they are not of that shape. */
  function DecodeOwnArgs(t: seq<string>): Option<BuildSettings> {
    var (flags, rest) := TakeFlags(t);
    match DecodeOptions(rest)
    case None => None
    case Some((framework, runtime, targets, versionSuffix)) =>
      Some(BuildSettings(flags.0, framework, flags.1, flags.2, flags.3, runtime, StoredItems(targets), versionSuffix))
  }

  /**
    Reads a whole `dotnet build` command line back, given how many tokens the
    base command contributed.
   */
  function DecodeBuildArgs(t: seq<string>, baseLength: nat): Option<(seq<string>, BuildSettings)> {
    if |t| < 1 + baseLength || t[0] != "build" then None
    else match DecodeOwnArgs(t[1 + baseLength..])
      case None => None
      case Some(s) => Some((t[1..1 + baseLength], s))
  }

  /** The flags are read back as set, when what follows is none of them. */
  lemma TakeFlagsOf(s: BuildSettings, rest: seq<string>)
    requires rest == [] || (rest[0] != "--force" && rest[0] != "--no-dependencies"
                            && rest[0] != "--no-incremental" && rest[0] != "--no-restore")
    ensures TakeFlags(FlagArgs(s) + rest) == ((s.force, s.noDependencies, s.noIncremental, s.noRestore), rest)
  {
    var a, b, c, d := FlagIf(s.force, "--force"), FlagIf(s.noDependencies, "--no-dependencies"),
      FlagIf(s.noIncremental, "--no-incremental"), FlagIf(s.noRestore, "--no-restore");
    FlagArgsInOrder(s);
    var t3 := d + rest;
    var t2 := c + t3;
    var t1 := b + t2;
    Regroup4(a, b, c, d, rest);
    assert FlagArgs(s) + rest == a + t1;
    TakeFlagIf(s.noRestore, "--no-restore", rest);
    TakeFlagIf(s.noIncremental, "--no-incremental", t3);
    TakeFlagIf(s.noDependencies, "--no-dependencies", t2);
    TakeFlagIf(s.force, "--force", t1);
  }

  /** The step's own tokens read back as the settings that produced them. */
  lemma DecodeOwnArgsOf(s: BuildSettings)
    requires WellFormed(s)
    ensures DecodeOwnArgs(OwnArgs(s)) == Some(s)
  {
    var t1 := OptionArgs(s) + TargetArgs(s.targets) + VersionSuffixArgs(s.versionSuffix);
    Regroup4(FlagArgs(s), OptionArgs(s), TargetArgs(s.targets), VersionSuffixArgs(s.versionSuffix), []);
    NoFlagAfterFlags(s);
    DecodeOptionsOf(s);
    TakeFlagsOf(s, t1);
    StoredItemsOf(s.targets);
  }

  /** What follows the flags is none of them. */
  lemma NoFlagAfterFlags(s: BuildSettings)
    ensures var t1 := OptionArgs(s) + TargetArgs(s.targets) + VersionSuffixArgs(s.versionSuffix);
            t1 == [] || (t1[0] != "--force" && t1[0] != "--no-dependencies"
                         && t1[0] != "--no-incremental" && t1[0] != "--no-restore")
  {
    var t1 := OptionArgs(s) + TargetArgs(s.targets) + VersionSuffixArgs(s.versionSuffix);
    OptionsTargetsSuffixOf(s);
    TailHeads(s);
    if t1 != [] {
      NotAFlag(t1[0]);
    }
  }

  /** After the flags, the remaining segments are read back as emitted. */
  lemma DecodeOptionsOf(s: BuildSettings)
    ensures DecodeOptions(OptionArgs(s) + TargetArgs(s.targets) + VersionSuffixArgs(s.versionSuffix))
            == Some((s.framework, s.runtime, Items(s.targets), s.versionSuffix))
  {
    OptionsTargetsSuffixOf(s);
  }

  /** After the flags, each remaining segment is read back as emitted. */
  lemma OptionsTargetsSuffixOf(s: BuildSettings)
    ensures var items := Items(s.targets);
            var t4 := VersionSuffixArgs(s.versionSuffix);
            var t3 := Prefixed("-t:", items) + t4;
            var t2 := Prefixed("-r:", Present(s.runtime)) + t3;
            var t1 := Prefixed("-f:", Present(s.framework)) + t2;
            && t1 == OptionArgs(s) + TargetArgs(s.targets) + VersionSuffixArgs(s.versionSuffix)
            && TakePrefixed(t1, "-f:") == (s.framework, t2)
            && TakePrefixed(t2, "-r:") == (s.runtime, t3)
            && TakeAllPrefixed(t3, "-t:") == (items, t4)
            && TakePair(t4, "--version-suffix") == (s.versionSuffix, [])
  {
    var items := Items(s.targets);
    var f, r, t4 := Prefixed("-f:", Present(s.framework)), Prefixed("-r:", Present(s.runtime)), VersionSuffixArgs(s.versionSuffix);
    var t3 := Prefixed("-t:", items) + t4;
    var t2 := r + t3;
    var t1 := f + t2;
    Regroup4(f, r, Prefixed("-t:", items), t4, []);
    assert t4 + [] == t4;
    TailHeads(s);
    TakePrefixedOf("-f:", s.framework, t2);
    TakePrefixedOf("-r:", s.runtime, t3);
    TakeAllPrefixedOf("-t:", items, t4);
    TakePairOf("--version-suffix", s.versionSuffix, []);
  }

  /**
    What follows each segment of the step's own tokens never looks like that
    segment: this is what makes reading them back unambiguous. After the
    flags comes a `-f:`, `-r:` or `-t:` token or `--version-suffix`, told
    from the flags by its third character.
   */
  lemma TailHeads(s: BuildSettings)
    ensures var t4 := VersionSuffixArgs(s.versionSuffix);
            var t3 := Prefixed("-t:", Items(s.targets)) + t4;
            var t2 := Prefixed("-r:", Present(s.runtime)) + t3;
            var t1 := Prefixed("-f:", Present(s.framework)) + t2;
            && (t1 == [] || (|t1[0]| >= 3 && (t1[0][2] == ':' || t1[0][2] == 'v')))
            && (t2 == [] || !HasPrefix(t2[0], "-f:"))
            && (t3 == [] || !HasPrefix(t3[0], "-r:"))
            && (t4 == [] || !HasPrefix(t4[0], "-t:"))
            && (|t4| < 2 || t4[0] == "--version-suffix")
  {
    var items := Items(s.targets);
    var t4 := VersionSuffixArgs(s.versionSuffix);
    var t3 := Prefixed("-t:", items) + t4;
    var t2 := Prefixed("-r:", Present(s.runtime)) + t3;
    var t1 := Prefixed("-f:", Present(s.framework)) + t2;
    if t4 != [] {
      DifferAt(t4[0], "-t:", 1);
    }
    if t3 != [] {
      if items != [] {
        assert t3[0] == "-t:" + items[0];
      }
      DifferAt(t3[0], "-r:", 1);
    }
    if t2 != [] {
      if s.runtime.Some? {
        assert t2[0] == "-r:" + s.runtime.value;
      } else if items != [] {
        assert t2[0] == "-t:" + items[0];
      }
      DifferAt(t2[0], "-f:", 1);
    }
    if t1 != [] {
      if s.framework.Some? {
        assert t1[0] == "-f:" + s.framework.value;
      } else if s.runtime.Some? {
        assert t1[0] == "-r:" + s.runtime.value;
      } else if items != [] {
        assert t1[0] == "-t:" + items[0];
      }
    }
  }

  /** A token whose third character is `:` or `v` is none of the four flags. */
  lemma NotAFlag(tok: string)
    requires |tok| >= 3 && (tok[2] == ':' || tok[2] == 'v')
    ensures tok != "--force" && tok != "--no-dependencies" && tok != "--no-incremental" && tok != "--no-restore"
  {
    DifferAt(tok, "--force", 2);
    DifferAt(tok, "--no-dependencies", 2);
    DifferAt(tok, "--no-incremental", 2);
    DifferAt(tok, "--no-restore", 2);
  }

  /**
    The command line is unambiguous: reading it back, knowing only how many
    tokens the base command added, recovers that contribution and every
    setting of the step.
   */
  lemma BuildArgsRoundTrip(s: BuildSettings, base: seq<string>)
    requires WellFormed(s)
    ensures DecodeBuildArgs(BuildArgs(s, base), |base|) == Some((base, s))
  {
    DecodeOwnArgsOf(s);
  }

  /** Different settings (with equally long base contributions) give different command lines. */
  lemma BuildArgsInjective(s1: BuildSettings, base1: seq<string>, s2: BuildSettings, base2: seq<string>)
    requires WellFormed(s1) && WellFormed(s2) && |base1| == |base2|
    requires BuildArgs(s1, base1) == BuildArgs(s2, base2)
    ensures s1 == s2 && base1 == base2
  {
    BuildArgsRoundTrip(s1, base1);
    BuildArgsRoundTrip(s2, base2);
  }
}
