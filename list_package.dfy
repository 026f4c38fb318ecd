/**
  The `dotnet list package` build step: its settings, how it appends its
  command line, and the form checks its configuration page runs.
 */
module Commands {
  import opened Text
  import opened Arguments

  /** The settings of a `dotnet list package` step, as its fields hold them. */
  datatype ListPackageSettings = ListPackageSettings(
    config: Option<string>,
    deprecated: bool,
    frameworks: Option<string>,
    highestMinor: bool,
    highestPatch: bool,
    includePrerelease: bool,
    includeTransitive: bool,
    outdated: bool,
    project: Option<string>,
    sources: Option<string>)

  /** A freshly created step: every flag false, every string null. */
  const Defaults := ListPackageSettings(None, false, None, false, false, false, false, false, None, None)

  /** What the setters can leave in the fields. */
  predicate WellFormed(s: ListPackageSettings) {
    && IsStoredScalar(s.config)
    && IsStoredList(s.frameworks)
    && IsStoredScalar(s.project)
    && IsStoredList(s.sources)
  }

  /** Whether the step searches for package updates: only then do the update options apply. */
  predicate UpdateSearch(s: ListPackageSettings) {
    s.outdated || s.deprecated
  }

  /** `list`, the project when one is set, then `package`. */
  function HeadArgs(s: ListPackageSettings): seq<string> {
    ["list"] + Present(s.project) + ["package"]
  }

  /** One `--framework` pair per framework moniker. */
  function FrameworkArgs(s: ListPackageSettings): seq<string> {
    Pairs("--framework", Items(s.frameworks))
  }

  /** The configuration file, as an option followed by its value. */
  function ConfigArgs(config: Option<string>): seq<string> {
    if config.Some? then ["--config", config.value] else []
  }

  /**
    The options that only apply to an update search, in the order they are
    emitted (each segment followed by the rest of the line).
   */
  function UpdateSearchArgs(s: ListPackageSettings): seq<string> {
    FlagIf(s.includePrerelease, "--include-prerelease")
    + (FlagIf(s.highestMinor, "--highest-minor")
    + (FlagIf(s.highestPatch, "--highest-patch")
    + (ConfigArgs(s.config)
    + Pairs("--source", Items(s.sources)))))
  }

  /** The update options when they apply, nothing otherwise. */
  function GatedArgs(s: ListPackageSettings): seq<string> {
    if UpdateSearch(s) then UpdateSearchArgs(s) else []
  }

  /**
    The whole command line the step assembles (each segment followed by the
    rest of the line): `list`, the project when one is set, `package`, then
    the options.
   */
  function ListPackageArgs(s: ListPackageSettings): (r: seq<string>)
    ensures |r| >= 2 && r[0] == "list"
    ensures s.project.Some? ==> |r| >= 3 && r[1] == s.project.value && r[2] == "package"
    ensures s.project.None? ==> r[1] == "package"
  {
    HeadArgs(s)
    + (FlagIf(s.deprecated, "--deprecated")
    + (FlagIf(s.outdated, "--outdated")
    + (FrameworkArgs(s)
    + (FlagIf(s.includeTransitive, "--include-transitive")
    + GatedArgs(s)))))
  }

  /** The `dotnet list package` build step. */
  class ListPackage {
    var config: Option<string>
    var deprecated: bool
    var frameworks: Option<string>
    var highestMinor: bool
    var highestPatch: bool
    var includePrerelease: bool
    var includeTransitive: bool
    var outdated: bool
    var project: Option<string>
    var sources: Option<string>

    function Settings(): ListPackageSettings
      reads this
    {
      ListPackageSettings(config, deprecated, frameworks, highestMinor, highestPatch,
                          includePrerelease, includeTransitive, outdated, project, sources)
    }

    ghost predicate Valid()
      reads this
    {
      WellFormed(Settings())
    }

    constructor ()
      ensures Valid() && Settings() == Defaults
    {
      config, deprecated, frameworks, highestMinor, highestPatch := None, false, None, false, false;
      includePrerelease, includeTransitive, outdated, project, sources := false, false, false, None, None;
    }

    method SetConfig(config: Option<string>)
      requires Valid()
      modifies this
      ensures Valid()
      ensures Settings() == old(Settings()).(config := FixEmptyAndTrim(config))
    {
      this.config := FixEmptyAndTrim(config);
    }

    method SetDeprecated(deprecated: bool)
      modifies this
      ensures Settings() == old(Settings()).(deprecated := deprecated)
    {
      this.deprecated := deprecated;
    }

    /**
      Stores the framework monikers. `normalized` is what
      `DotNetUtils.normalizeList` returned for the user's text: null, or items
      joined by single spaces.
     */
    method SetFrameworks(normalized: Option<string>)
      requires Valid()
      requires IsStoredList(normalized)
      modifies this
      ensures Valid()
      ensures Settings() == old(Settings()).(frameworks := normalized)
    {
      this.frameworks := normalized;
    }

    method SetHighestMinor(highestMinor: bool)
      modifies this
      ensures Settings() == old(Settings()).(highestMinor := highestMinor)
    {
      this.highestMinor := highestMinor;
    }

    method SetHighestPatch(highestPatch: bool)
      modifies this
      ensures Settings() == old(Settings()).(highestPatch := highestPatch)
    {
      this.highestPatch := highestPatch;
    }

    method SetIncludePrerelease(includePrerelease: bool)
      modifies this
      ensures Settings() == old(Settings()).(includePrerelease := includePrerelease)
    {
      this.includePrerelease := includePrerelease;
    }

    method SetIncludeTransitive(includeTransitive: bool)
      modifies this
      ensures Settings() == old(Settings()).(includeTransitive := includeTransitive)
    {
      this.includeTransitive := includeTransitive;
    }

    method SetOutdated(outdated: bool)
      modifies this
      ensures Settings() == old(Settings()).(outdated := outdated)
    {
      this.outdated := outdated;
    }

    method SetProject(project: Option<string>)
      requires Valid()
      modifies this
      ensures Valid()
      ensures Settings() == old(Settings()).(project := FixEmptyAndTrim(project))
    {
      this.project := FixEmptyAndTrim(project);
    }

    /** Stores the package sources, as `normalizeList` returned them (see `SetFrameworks`). */
    method SetSources(normalized: Option<string>)
      requires Valid()
      requires IsStoredList(normalized)
      modifies this
      ensures Valid()
      ensures Settings() == old(Settings()).(sources := normalized)
    {
      this.sources := normalized;
    }

    /** Appends this step's command line to `args`. */
    method AddCommandLineArguments(args: ArgumentListBuilder)
      modifies args
      ensures args.args == old(args.args) + ListPackageArgs(old(Settings()))
    {
      var s := Settings();
      ghost var start := args.args;
      args.Add("list");
      args.AddIfPresent(s.project);
      args.Add("package");
      ghost var m0 := args.args;
      if s.deprecated {
        args.Add("--deprecated");
      }
      ghost var m1 := args.args;
      assert m1 == m0 + FlagIf(s.deprecated, "--deprecated");
      if s.outdated {
        args.Add("--outdated");
      }
      ghost var m2 := args.args;
      assert m2 == m1 + FlagIf(s.outdated, "--outdated");
      AddEachPair(args, "--framework", s.frameworks);
      ghost var m3 := args.args;
      if s.includeTransitive {
        args.Add("--include-transitive");
      }
      ghost var m4 := args.args;
      assert m4 == m3 + FlagIf(s.includeTransitive, "--include-transitive");
      if s.outdated || s.deprecated {
        AddUpdateSearchOptions(args, s);
      }
      assert args.args == m4 + GatedArgs(s);
      Appended5(m0, m1, m2, m3, m4, args.args,
                FlagIf(s.deprecated, "--deprecated"), FlagIf(s.outdated, "--outdated"), FrameworkArgs(s),
                FlagIf(s.includeTransitive, "--include-transitive"), GatedArgs(s));
      assert m0 == start + HeadArgs(s);
      AfterHead(start, HeadArgs(s), m0, args.args,
                FlagIf(s.deprecated, "--deprecated") + (FlagIf(s.outdated, "--outdated") + (FrameworkArgs(s)
                + (FlagIf(s.includeTransitive, "--include-transitive") + GatedArgs(s)))));
    }
  }

  /**
    For a stored list, one `flag item` pair for each item of the list split
    at spaces (the two-argument `add` appends both, in turn); nothing when
    the list is absent.
   */
  method AddEachPair(args: ArgumentListBuilder, flag: string, list: Option<string>)
    modifies args
    ensures args.args == old(args.args) + Pairs(flag, Items(list))
  {
    if list.Some? {
      ghost var m0 := args.args;
      var items := Split(list.value);
      for i := 0 to |items|
        invariant args.args == m0 + Pairs(flag, items[..i])
      {
        PairsSnoc(flag, items[..i], items[i]);
        assert items[..i + 1] == items[..i] + [items[i]];
        args.AddAll([flag, items[i]]);
      }
      assert items[..|items|] == items;
    }
  }

  /** The options of an update search, each added only when set. */
  method AddUpdateSearchOptions(args: ArgumentListBuilder, s: ListPackageSettings)
    modifies args
    ensures args.args == old(args.args) + UpdateSearchArgs(s)
  {
    ghost var m0 := args.args;
    if s.includePrerelease {
      args.Add("--include-prerelease");
    }
    ghost var m1 := args.args;
    assert m1 == m0 + FlagIf(s.includePrerelease, "--include-prerelease");
    if s.highestMinor {
      args.Add("--highest-minor");
    }
    ghost var m2 := args.args;
    assert m2 == m1 + FlagIf(s.highestMinor, "--highest-minor");
    if s.highestPatch {
      args.Add("--highest-patch");
    }
    ghost var m3 := args.args;
    assert m3 == m2 + FlagIf(s.highestPatch, "--highest-patch");
    if s.config.Some? {
      args.AddAll(["--config", s.config.value]);
    }
    ghost var m4 := args.args;
    assert m4 == m3 + ConfigArgs(s.config);
    AddEachPair(args, "--source", s.sources);
    Appended5(m0, m1, m2, m3, m4, args.args,
                          FlagIf(s.includePrerelease, "--include-prerelease"), FlagIf(s.highestMinor, "--highest-minor"),
                          FlagIf(s.highestPatch, "--highest-patch"), ConfigArgs(s.config), Pairs("--source", Items(s.sources)));
  }


  // ---------------------------------------------------------------------
  // Where each setting lands on the command line

  /** The configuration file and the sources are read back as emitted. */
  lemma ReadConfigSourcesOf(s: ListPackageSettings)
    ensures var u4 := Pairs("--source", Items(s.sources));
            var u3 := ConfigArgs(s.config) + u4;
            && Leads(u3, {'c', 's'})
            && TakePair(u3, "--config") == (s.config, u4)
            && TakePairs(u4, "--source") == (Items(s.sources), [])
  {
    var u4 := Pairs("--source", Items(s.sources));
    var u3 := ConfigArgs(s.config) + u4;
    TakePairsOf("--source", Items(s.sources), []);
    assert u4 + [] == u4;
    LeadsAfterPairs("--source", Items(s.sources), [], {}, {'s'});
    NotLed(u4, {'s'}, "--config");
    TakePairOf("--config", s.config, u4);
    if s.config.Some? {
      assert u3[0] == "--config";
    } else {
      assert u3 == u4;
    }
  }

  /** The three update flags are read back as emitted, ahead of a line led by `c` or `s`. */
  lemma ReadHighestOf(s: ListPackageSettings, u3: seq<string>)
    requires Leads(u3, {'c', 's'})
    ensures var u2 := FlagIf(s.highestPatch, "--highest-patch") + u3;
            var u1 := FlagIf(s.highestMinor, "--highest-minor") + u2;
            && Leads(u1, {'h', 'c', 's'})
            && TakeFlag(FlagIf(s.includePrerelease, "--include-prerelease") + u1, "--include-prerelease")
               == (s.includePrerelease, u1)
            && TakeFlag(u1, "--highest-minor") == (s.highestMinor, u2)
            && TakeFlag(u2, "--highest-patch") == (s.highestPatch, u3)
  {
    var u2 := FlagIf(s.highestPatch, "--highest-patch") + u3;
    NotLed(u3, {'c', 's'}, "--highest-patch");
    TakeFlagIf(s.highestPatch, "--highest-patch", u3);
    if s.highestPatch {
      DifferAt(u2[0], "--highest-minor", 10);
    } else {
      NotLed(u3, {'c', 's'}, "--highest-minor");
    }
    TakeFlagIf(s.highestMinor, "--highest-minor", u2);
    LeadsAfterFlag(s.highestPatch, "--highest-patch", u3, {'c', 's'}, {'h', 'c', 's'});
    LeadsAfterFlag(s.highestMinor, "--highest-minor", u2, {'h', 'c', 's'}, {'h', 'c', 's'});
    var u1 := FlagIf(s.highestMinor, "--highest-minor") + u2;
    NotLed(u1, {'h', 'c', 's'}, "--include-prerelease");
    TakeFlagIf(s.includePrerelease, "--include-prerelease", u1);
  }

  /** What follows `--include-transitive`: nothing, or the start of the update options. */
  predicate GatedHead(g: seq<string>) {
    (g != [] && g[0] == "--include-prerelease") || Leads(g, {'h', 'c', 's'})
  }

  lemma GatedArgsHead(s: ListPackageSettings)
    ensures GatedHead(GatedArgs(s))
  {
    if UpdateSearch(s) {
      var u4 := Pairs("--source", Items(s.sources));
      var u3 := ConfigArgs(s.config) + u4;
      ReadConfigSourcesOf(s);
      ReadHighestOf(s, u3);
      if s.includePrerelease {
        assert UpdateSearchArgs(s)[0] == "--include-prerelease";
      }
    }
  }

  /** `--include-transitive` and the framework pairs are read back as emitted, ahead of the update options `g`. */
  lemma ReadFrameworksOf(s: ListPackageSettings, g: seq<string>)
    requires GatedHead(g)
    ensures var t3 := FlagIf(s.includeTransitive, "--include-transitive") + g;
            var t2 := FrameworkArgs(s) + t3;
            && Leads(t2, {'f', 'i', 'h', 'c', 's'})
            && TakePairs(t2, "--framework") == (Items(s.frameworks), t3)
            && TakeFlag(t3, "--include-transitive") == (s.includeTransitive, g)
  {
    var t3 := FlagIf(s.includeTransitive, "--include-transitive") + g;
    if g != [] && g[0] == "--include-prerelease" {
      DifferAt(g[0], "--include-transitive", 10);
    } else {
      NotLed(g, {'h', 'c', 's'}, "--include-transitive");
    }
    assert Leads(g, {'i', 'h', 'c', 's'});
    TakeFlagIf(s.includeTransitive, "--include-transitive", g);
    LeadsAfterFlag(s.includeTransitive, "--include-transitive", g, {'i', 'h', 'c', 's'}, {'i', 'h', 'c', 's'});
    NotLed(t3, {'i', 'h', 'c', 's'}, "--framework");
    TakePairsOf("--framework", Items(s.frameworks), t3);
    LeadsAfterPairs("--framework", Items(s.frameworks), t3, {'i', 'h', 'c', 's'}, {'f', 'i', 'h', 'c', 's'});
  }

  /** The report flags are read back as emitted, ahead of a line led by one of the later options. */
  lemma ReadReportOf(s: ListPackageSettings, t2: seq<string>)
    requires Leads(t2, {'f', 'i', 'h', 'c', 's'})
    ensures var t1 := FlagIf(s.outdated, "--outdated") + t2;
            var t0 := FlagIf(s.deprecated, "--deprecated") + t1;
            && (t0 == [] || t0[0] != "package")
            && TakeFlag(t0, "--deprecated") == (s.deprecated, t1)
            && TakeFlag(t1, "--outdated") == (s.outdated, t2)
  {
    var t1 := FlagIf(s.outdated, "--outdated") + t2;
    var ds := {'o', 'f', 'i', 'h', 'c', 's'};
    NotLed(t2, {'f', 'i', 'h', 'c', 's'}, "--outdated");
    TakeFlagIf(s.outdated, "--outdated", t2);
    LeadsAfterFlag(s.outdated, "--outdated", t2, {'f', 'i', 'h', 'c', 's'}, ds);
    NotLed(t1, ds, "--deprecated");
    TakeFlagIf(s.deprecated, "--deprecated", t1);
    LeadsAfterFlag(s.deprecated, "--deprecated", t1, ds, ds + {'d'});
  }

  /**
    After `package`, each of the leading segments is read back as emitted:
    the report flags, the framework pairs and `--include-transitive`, up to
    whatever update options `g` follow.
   */
  lemma ReadLeadingOf(s: ListPackageSettings, g: seq<string>)
    requires GatedHead(g)
    ensures var t3 := FlagIf(s.includeTransitive, "--include-transitive") + g;
            var t2 := FrameworkArgs(s) + t3;
            var t1 := FlagIf(s.outdated, "--outdated") + t2;
            var t0 := FlagIf(s.deprecated, "--deprecated") + t1;
            && (t0 == [] || t0[0] != "package")
            && TakeFlag(t0, "--deprecated") == (s.deprecated, t1)
            && TakeFlag(t1, "--outdated") == (s.outdated, t2)
            && TakePairs(t2, "--framework") == (Items(s.frameworks), t3)
            && TakeFlag(t3, "--include-transitive") == (s.includeTransitive, g)
  {
    ReadFrameworksOf(s, g);
    ReadReportOf(s, FrameworkArgs(s) + (FlagIf(s.includeTransitive, "--include-transitive") + g));
  }

  /** Token `n` of `h + (d + t)` is the first token of `t`, if there is one. */
  lemma SegmentAt<T>(h: seq<T>, d: seq<T>, t: seq<T>, n: nat)
    requires n == |h| + |d|
    ensures n < |h + (d + t)| <==> t != []
    ensures t != [] ==> (h + (d + t))[n] == t[0]
  {
  }

  /**
    Right after `package` comes `--deprecated` exactly when it is set, and
    right after that `--outdated` exactly when it is set.
   */
  lemma ReportFlagsAfterHead(s: ListPackageSettings, n: nat, m: nat)
    requires n == |HeadArgs(s)|
    requires m == n + |FlagIf(s.deprecated, "--deprecated")|
    ensures var r := ListPackageArgs(s);
            && (s.deprecated <==> n < |r| && r[n] == "--deprecated")
            && (s.outdated <==> m < |r| && r[m] == "--outdated")
  {
    var t1 := FlagIf(s.outdated, "--outdated")
              + (FrameworkArgs(s) + (FlagIf(s.includeTransitive, "--include-transitive") + GatedArgs(s)));
    var t0 := FlagIf(s.deprecated, "--deprecated") + t1;
    GatedArgsHead(s);
    ReadLeadingOf(s, GatedArgs(s));
    SegmentAt(HeadArgs(s), [], t0, n);
    assert [] + t0 == t0;
    SegmentAt(HeadArgs(s), FlagIf(s.deprecated, "--deprecated"), t1, m);
  }

  /** Tokens `k` and `k + 1` of the fourth segment, counted from where that segment starts. */
  lemma PairAt<T>(h: seq<T>, d: seq<T>, o: seq<T>, f: seq<T>, rest: seq<T>, n: nat, k: nat)
    requires n == |h| + |d| + |o| && k + 1 < |f|
    ensures n + k + 1 < |h + (d + (o + (f + rest)))|
    ensures (h + (d + (o + (f + rest))))[n + k] == f[k] && (h + (d + (o + (f + rest))))[n + k + 1] == f[k + 1]
  {
  }

  /**
    The frameworks come next: for `k` framework items, `2k` tokens
    alternating `--framework` and the item, in item order.
   */
  lemma FrameworkPairsAt(s: ListPackageSettings, n: nat, i: nat, k: nat)
    requires n == |HeadArgs(s)| + |FlagIf(s.deprecated, "--deprecated")| + |FlagIf(s.outdated, "--outdated")|
    requires i < |Items(s.frameworks)| && k == 2 * i
    ensures var r := ListPackageArgs(s);
            && n + k + 1 < |r|
            && r[n + k] == "--framework" && r[n + k + 1] == Items(s.frameworks)[i]
  {
    var f := FrameworkArgs(s);
    PairsAt("--framework", Items(s.frameworks), i);
    assert f[k] == "--framework" && f[k + 1] == Items(s.frameworks)[i];
    PairAt(HeadArgs(s), FlagIf(s.deprecated, "--deprecated"), FlagIf(s.outdated, "--outdated"), f,
           FlagIf(s.includeTransitive, "--include-transitive") + GatedArgs(s), n, k);
  }

  /** Token `m` of `h + (d + (o + (f + t)))` is the first token of `t`, if there is one. */
  lemma FifthSegmentAt<T>(h: seq<T>, d: seq<T>, o: seq<T>, f: seq<T>, t: seq<T>, m: nat)
    requires m == |h| + |d| + |o| + |f|
    ensures |h + (d + (o + (f + t)))| == m + |t|
    ensures t != [] ==> (h + (d + (o + (f + t))))[m] == t[0]
  {
  }

  /**
    Right after the framework pairs comes `--include-transitive`, exactly
    when it is set, whether or not an update search is made; a step that is
    not an update search ends there.
   */
  lemma TransitiveAfterFrameworks(s: ListPackageSettings, m: nat)
    requires m == |HeadArgs(s)| + |FlagIf(s.deprecated, "--deprecated")| + |FlagIf(s.outdated, "--outdated")|
                  + 2 * |Items(s.frameworks)|
    ensures var r := ListPackageArgs(s);
            && (s.includeTransitive <==> m < |r| && r[m] == "--include-transitive")
            && (!UpdateSearch(s) ==> |r| == m + |FlagIf(s.includeTransitive, "--include-transitive")|)
  {
    var t3 := FlagIf(s.includeTransitive, "--include-transitive") + GatedArgs(s);
    GatedArgsHead(s);
    ReadLeadingOf(s, GatedArgs(s));
    FifthSegmentAt(HeadArgs(s), FlagIf(s.deprecated, "--deprecated"), FlagIf(s.outdated, "--outdated"),
                   FrameworkArgs(s), t3, m);
  }

  /** The last `|u|` tokens of `h + (d + (o + (f + (x + u))))` are `u`. */
  lemma LastSegment<T>(h: seq<T>, d: seq<T>, o: seq<T>, f: seq<T>, x: seq<T>, u: seq<T>, m: nat)
    requires m == |h| + |d| + |o| + |f| + |x|
    ensures (h + (d + (o + (f + (x + u)))))[m..] == u
  {
    assert h + (d + (o + (f + (x + u)))) == (h + d + o + f + x) + u;
  }

  /**
    An update search ends with its options, in their fixed order: the three
    flags each when set, then the configuration file, then one `--source`
    pair per source.
   */
  lemma UpdateSearchLast(s: ListPackageSettings, m: nat)
    requires UpdateSearch(s)
    requires m == |ListPackageArgs(s)| - |UpdateSearchArgs(s)|
    ensures ListPackageArgs(s)[m..] == UpdateSearchArgs(s)
  {
    LastSegment(HeadArgs(s), FlagIf(s.deprecated, "--deprecated"), FlagIf(s.outdated, "--outdated"), FrameworkArgs(s),
                FlagIf(s.includeTransitive, "--include-transitive"), UpdateSearchArgs(s), m);
  }

  /**
    Without an update search, the prerelease, highest-version,
    configuration and source settings add nothing at all.
   */
  lemma UpdateSettingsIgnored(s: ListPackageSettings, includePrerelease: bool, highestMinor: bool, highestPatch: bool,
                              config: Option<string>, sources: Option<string>)
    requires !UpdateSearch(s)
    ensures ListPackageArgs(s.(includePrerelease := includePrerelease, highestMinor := highestMinor,
                               highestPatch := highestPatch, config := config, sources := sources))
            == ListPackageArgs(s)
  {
  }

  /** A fresh step runs plain `dotnet list package`. */
  lemma DefaultsListPackageOnly()
    ensures ListPackageArgs(Defaults) == ["list", "package"]
  {
  }

  // ---------------------------------------------------------------------
  // Reading the command line back

  /**
    The settings that reach the command line: without an update search the
    update options are dropped.
   */
  function Effective(s: ListPackageSettings): ListPackageSettings {
    if UpdateSearch(s) then s
    else s.(includePrerelease := false, highestMinor := false, highestPatch := false, config := None, sources := None)
  }

  /** Reads `list`, the optional project and `package` off the front of `t`. */
  function DecodeHead(t: seq<string>): Option<(Option<string>, seq<string>)> {
    if |t| >= 3 && t[0] == "list" && t[2] == "package" then Some((Some(t[1]), t[3..]))
    else if |t| >= 2 && t[0] == "list" && t[1] == "package" then Some((None, t[2..]))
    else None
  }

  /** Reads the update options: the three flags, the configuration file and the sources. */
  function DecodeUpdateSearchArgs(t: seq<string>): Option<(bool, bool, bool, Option<string>, seq<string>)> {
    var (includePrerelease, t1) := TakeFlag(t, "--include-prerelease");
    var (highestMinor, t2) := TakeFlag(t1, "--highest-minor");
    var (highestPatch, t3) := TakeFlag(t2, "--highest-patch");
    var (config, t4) := TakePair(t3, "--config");
    var (sources, t5) := TakePairs(t4, "--source");
    if t5 != [] then None else Some((includePrerelease, highestMinor, highestPatch, config, sources))
  }

  /** Reads a whole `dotnet list package` command line back into settings; `None` if it is not of that shape. */
  function DecodeListPackageArgs(t: seq<string>): Option<ListPackageSettings> {
    match DecodeHead(t)
    case None => None
    case Some((project, t0)) =>
      var (deprecated, t1) := TakeFlag(t0, "--deprecated");
      var (outdated, t2) := TakeFlag(t1, "--outdated");
      var (frameworks, t3) := TakePairs(t2, "--framework");
      var (includeTransitive, t4) := TakeFlag(t3, "--include-transitive");
      match DecodeUpdateSearchArgs(t4)
      case None => None
      case Some((includePrerelease, highestMinor, highestPatch, config, sources)) =>
        Some(ListPackageSettings(config, deprecated, StoredItems(frameworks), highestMinor, highestPatch,
                                 includePrerelease, includeTransitive, outdated, project, StoredItems(sources)))
  }

  /** The head is read back as emitted, when what follows is not `package`. */
  lemma DecodeHeadOf(s: ListPackageSettings, rest: seq<string>)
    requires rest == [] || rest[0] != "package"
    ensures DecodeHead(HeadArgs(s) + rest) == Some((s.project, rest))
  {
    var t := HeadArgs(s) + rest;
    if s.project.Some? {
      assert t[3..] == rest;
    } else {
      assert t[2..] == rest;
    }
  }

  /** The update options are read back as emitted. */
  lemma DecodeUpdateSearchArgsOf(s: ListPackageSettings)
    ensures DecodeUpdateSearchArgs(UpdateSearchArgs(s))
            == Some((s.includePrerelease, s.highestMinor, s.highestPatch, s.config, Items(s.sources)))
  {
    var u4 := Pairs("--source", Items(s.sources));
    var u3 := ConfigArgs(s.config) + u4;
    ReadConfigSourcesOf(s);
    ReadHighestOf(s, u3);
  }

  /**
    The command line is unambiguous: reading it back recovers every setting
    that reaches it.
   */
  lemma ListPackageArgsRoundTrip(s: ListPackageSettings)
    requires WellFormed(s)
    ensures DecodeListPackageArgs(ListPackageArgs(s)) == Some(Effective(s))
  {
    var g := GatedArgs(s);
    var t0 := FlagIf(s.deprecated, "--deprecated") + (FlagIf(s.outdated, "--outdated")
              + (FrameworkArgs(s) + (FlagIf(s.includeTransitive, "--include-transitive") + g)));
    GatedArgsHead(s);
    ReadLeadingOf(s, g);
    DecodeHeadOf(s, t0);
    DecodeUpdateSearchArgsOf(Effective(s));
    assert g == UpdateSearchArgs(Effective(s));
    StoredItemsOf(s.frameworks);
    StoredItemsOf(Effective(s).sources);
  }

  lemma UpdateSettingsIgnoredEffective(s: ListPackageSettings)
    ensures ListPackageArgs(Effective(s)) == ListPackageArgs(s)
  {
    if !UpdateSearch(s) {
      UpdateSettingsIgnored(s, false, false, false, None, None);
    }
  }

  /**
    Two well-formed steps assemble the same command line exactly when they
    agree on every setting that reaches it.
   */
  lemma ListPackageArgsInjective(s1: ListPackageSettings, s2: ListPackageSettings)
    requires WellFormed(s1) && WellFormed(s2)
    ensures ListPackageArgs(s1) == ListPackageArgs(s2) <==> Effective(s1) == Effective(s2)
  {
    ListPackageArgsRoundTrip(s1);
    ListPackageArgsRoundTrip(s2);
    if Effective(s1) == Effective(s2) {
      UpdateSettingsIgnoredEffective(s1);
      UpdateSettingsIgnoredEffective(s2);
    }
  }

  // ---------------------------------------------------------------------
  // Form validation

  /** The messages the form checks can give. */
  datatype Message = OnlyForPackageUpdateSearch | EitherDeprecatedOrOutdated

  /** A form check's verdict: fine, or a warning or an error with its message. */
  datatype FormValidation = Ok | Warning(message: Message) | Error(message: Message)

  /** Flags a setting that only an update search uses, when it is set but no update search is made. */
  function WarnUnlessUpdateSearch(isSet: bool, deprecated: bool, outdated: bool): (r: FormValidation)
    ensures r == Ok || r == Warning(OnlyForPackageUpdateSearch)
  {
    if isSet && !deprecated && !outdated then Warning(OnlyForPackageUpdateSearch) else Ok
  }

  /** Flags asking for both the deprecated and the outdated packages. */
  function EitherReport(deprecated: bool, outdated: bool): (r: FormValidation)
    ensures r == Ok || r == Error(EitherDeprecatedOrOutdated)
  {
    if deprecated && outdated then Error(EitherDeprecatedOrOutdated) else Ok
  }

  /** The check on the configuration file: a non-blank value is flagged when no update search is made. */
  function CheckConfig(value: Option<string>, deprecated: bool, outdated: bool): (r: FormValidation)
    ensures r == Ok || r == Warning(OnlyForPackageUpdateSearch)
  {
    WarnUnlessUpdateSearch(FixEmptyAndTrim(value).Some?, deprecated, outdated)
  }

  function CheckDeprecated(deprecated: bool, outdated: bool): (r: FormValidation)
    ensures r == Ok || r == Error(EitherDeprecatedOrOutdated)
  {
    EitherReport(deprecated, outdated)
  }

  function CheckHighestMinor(value: bool, deprecated: bool, outdated: bool): (r: FormValidation)
    ensures r == Ok || r == Warning(OnlyForPackageUpdateSearch)
  {
    WarnUnlessUpdateSearch(value, deprecated, outdated)
  }

  function CheckHighestPatch(value: bool, deprecated: bool, outdated: bool): (r: FormValidation)
    ensures r == Ok || r == Warning(OnlyForPackageUpdateSearch)
  {
    WarnUnlessUpdateSearch(value, deprecated, outdated)
  }

  function CheckIncludePrerelease(value: bool, deprecated: bool, outdated: bool): (r: FormValidation)
    ensures r == Ok || r == Warning(OnlyForPackageUpdateSearch)
  {
    WarnUnlessUpdateSearch(value, deprecated, outdated)
  }

  function CheckOutdated(deprecated: bool, outdated: bool): (r: FormValidation)
    ensures r == Ok || r == Error(EitherDeprecatedOrOutdated)
  {
    EitherReport(deprecated, outdated)
  }

  /** The check on the package sources: a non-blank value is flagged when no update search is made. */
  function CheckSources(value: Option<string>, deprecated: bool, outdated: bool): (r: FormValidation)
    ensures r == Ok || r == Warning(OnlyForPackageUpdateSearch)
  {
    WarnUnlessUpdateSearch(FixEmptyAndTrim(value).Some?, deprecated, outdated)
  }

  /**
    The deprecated and outdated checks agree, and give an error exactly when
    the command line would carry both `--deprecated` and `--outdated`, one
    after the other, right after `package`.
   */
  lemma ReportCheckError(s: ListPackageSettings, n: nat)
    requires n == |HeadArgs(s)|
    ensures CheckOutdated(s.deprecated, s.outdated) == CheckDeprecated(s.deprecated, s.outdated)
    ensures var r := ListPackageArgs(s);
            CheckDeprecated(s.deprecated, s.outdated).Error?
            <==> n + 1 < |r| && r[n] == "--deprecated" && r[n + 1] == "--outdated"
  {
    ReportFlagsAfterHead(s, n, n + |FlagIf(s.deprecated, "--deprecated")|);
  }

  /** The three flags that only an update search uses. */
  datatype UpdateFlag = IncludePrerelease | HighestMinor | HighestPatch

  /** `s` with update flag `f` set to `b`. */
  function WithUpdateFlag(s: ListPackageSettings, f: UpdateFlag, b: bool): ListPackageSettings {
    match f
    case IncludePrerelease => s.(includePrerelease := b)
    case HighestMinor => s.(highestMinor := b)
    case HighestPatch => s.(highestPatch := b)
  }

  /** The form check on update flag `f`. */
  function CheckUpdateFlag(f: UpdateFlag, value: bool, deprecated: bool, outdated: bool): FormValidation {
    match f
    case IncludePrerelease => CheckIncludePrerelease(value, deprecated, outdated)
    case HighestMinor => CheckHighestMinor(value, deprecated, outdated)
    case HighestPatch => CheckHighestPatch(value, deprecated, outdated)
  }

  /**
    The check on an update flag warns exactly when the flag is ticked but
    ticking it leaves the command line as it was.
   */
  lemma UpdateFlagWarning(s: ListPackageSettings, f: UpdateFlag, value: bool)
    ensures CheckUpdateFlag(f, value, s.deprecated, s.outdated).Warning?
            <==> value && ListPackageArgs(WithUpdateFlag(s, f, true)) == ListPackageArgs(WithUpdateFlag(s, f, false))
  {
    if UpdateSearch(s) {
      UpdateFlagCounts(s, f);
    }
  }

  /** In an update search, ticking an update flag adds one token. */
  lemma UpdateFlagCounts(s: ListPackageSettings, f: UpdateFlag)
    requires UpdateSearch(s)
    ensures |ListPackageArgs(WithUpdateFlag(s, f, true))| == |ListPackageArgs(WithUpdateFlag(s, f, false))| + 1
  {
    var on, off := WithUpdateFlag(s, f, true), WithUpdateFlag(s, f, false);
    assert |UpdateSearchArgs(on)| == |UpdateSearchArgs(off)| + 1 by {
      match f
      case IncludePrerelease =>
      case HighestMinor =>
      case HighestPatch =>
    }
  }

  /**
    The check on the configuration file warns exactly when the setter would
    store a file name that the command line then leaves out.
   */
  lemma ConfigWarning(s: ListPackageSettings, value: Option<string>)
    ensures CheckConfig(value, s.deprecated, s.outdated).Warning?
            <==> FixEmptyAndTrim(value).Some?
                 && ListPackageArgs(s.(config := FixEmptyAndTrim(value))) == ListPackageArgs(s.(config := None))
  {
    var on, off := s.(config := FixEmptyAndTrim(value)), s.(config := None);
    if UpdateSearch(s) && FixEmptyAndTrim(value).Some? {
      assert |UpdateSearchArgs(on)| == |UpdateSearchArgs(off)| + 2;
      assert |ListPackageArgs(on)| == |ListPackageArgs(off)| + 2;
    }
  }

  /**
    The check on the sources warns exactly when non-blank text is entered
    while a stored list of sources would be left out of the command line.
   */
  lemma SourcesWarning(s: ListPackageSettings, value: Option<string>, stored: string)
    requires IsListString(stored)
    ensures CheckSources(value, s.deprecated, s.outdated).Warning?
            <==> FixEmptyAndTrim(value).Some?
                 && ListPackageArgs(s.(sources := Some(stored))) == ListPackageArgs(s.(sources := None))
  {
    var on, off := s.(sources := Some(stored)), s.(sources := None);
    if UpdateSearch(s) {
      SplitListString(stored);
      assert |Pairs("--source", Items(on.sources))| >= 2;
      assert |UpdateSearchArgs(on)| > |UpdateSearchArgs(off)|;
      assert |ListPackageArgs(on)| > |ListPackageArgs(off)|;
    }
  }
}
