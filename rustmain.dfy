/** The Rust binary (src/main.rs): discovery of the kubeconfig names under
    `$HOME/.kube`, the mode dispatch of `main`, and its fixed texts. The
    parsed command line, the value of `HOME`, the glob library and the
    build-time version string enter as parameters. */
module RustMain {
  import opened ByteText
  import opened Sorting
  import opened Process
  import ShellInit

  /** The command line as clap parses it. */
  datatype Cli = Cli(config: Option<Bytes>, version: bool, list: bool, shell: bool, init: Option<Bytes>)

  /** One item the glob iterator yields: a path, or an error reading one. */
  datatype GlobEntry = Unreadable | Found(path: Bytes)

  /** What `glob(&pattern)` returns: a pattern error, or the iterator's items. */
  datatype GlobResult = PatternError | Paths(entries: seq<GlobEntry>)

  const SUFFIX := Str(".kubeconfig")

  /** The pattern discovery globs for a home directory. */
  function Pattern(home: Bytes): Bytes {
    home + Str("/.kube/*.kubeconfig")
  }

  /** The glob library's promise for that pattern: the last segment of
      every path it yields ends with `.kubeconfig`. */
  predicate MatchesPattern(g: GlobResult) {
    g.Paths? ==>
      forall i :: 0 <= i < |g.entries| && g.entries[i].Found? ==>
        EndsWith(LastSegment(g.entries[i].path), SUFFIX)
  }

  // ---------------------------------------------------------------------------
  // Discovery

  /** The components of a Unix path that `Path::components` reports after
      the start: empty segments and `.` segments are not components. */
  function Components(parts: seq<Bytes>): seq<Bytes> {
    if parts == [] then []
    else
      var last := parts[|parts| - 1];
      Components(parts[..|parts| - 1]) + (if last == [] || last == Str(".") then [] else [last])
  }

  /** `Path::file_name`: the last component, unless the path has none or
      ends in `..`. */
  function FileName(path: Bytes): Option<Bytes> {
    var cs := Components(Split(path, SLASH));
    if cs == [] || cs[|cs| - 1] == Str("..") then None else Some(cs[|cs| - 1])
  }

  /** The entry yields the name `name`: it was read, it has a file name, and
      that name converts to a `String` (it is well-formed UTF-8). */
  predicate Yields(e: GlobEntry, name: Bytes) {
    e.Found? && FileName(e.path) == Some(name) && ValidUtf8(name)
  }

  /** The name an entry contributes, if any. */
  function EntryName(e: GlobEntry): seq<Bytes> {
    match e
    case Unreadable => []
    case Found(path) =>
      match FileName(path)
      case None => []
      case Some(name) => if ValidUtf8(name) then [name] else []
  }

  /** The names the `filter_map` chain collects, in iteration order. */
  function Names(es: seq<GlobEntry>): seq<Bytes> {
    if es == [] then [] else Names(es[..|es| - 1]) + EntryName(es[|es| - 1])
  }

  /** `env::var("HOME")` applied to the raw environment value: `Err`, here
      `None`, both when `HOME` is unset and when its value is not UTF-8
      text. `Discover` and `Run` take the result of this call. */
  function EnvVar(raw: Option<Bytes>): (r: Option<Bytes>)
    ensures r.Some? <==> raw.Some? && ValidUtf8(raw.value)
    ensures r.Some? ==> r == raw
  {
    match raw
    case None => None
    case Some(v) => if ValidUtf8(v) then Some(v) else None
  }

  /** `get_kubeconfigs`: no names without `HOME` or for a bad pattern,
      otherwise the collected names sorted ascending. */
  function Discover(home: Option<Bytes>, glob: Bytes -> GlobResult): seq<Bytes> {
    match home
    case None => []
    case Some(h) =>
      match glob(Pattern(h))
      case PatternError => []
      case Paths(es) => Sort(Names(es))
  }

  /** `get_kubeconfigs` as the source runs it: collect the names entry by
      entry into a vector, then sort the vector in place. */
  method GetKubeconfigs(home: Option<Bytes>, glob: Bytes -> GlobResult) returns (kubeconfigs: seq<Bytes>)
    ensures kubeconfigs == Discover(home, glob)
  {
    if home.None? {
      return [];
    }
    var result := glob(Pattern(home.value));
    if result.PatternError? {
      return [];
    }
    var es := result.entries;
    var collected: seq<Bytes> := [];
    var i := 0;
    while i < |es|
      invariant 0 <= i <= |es|
      invariant collected == Names(es[..i])
    {
      assert es[..i + 1][..i] == es[..i];
      assert Names(es[..i + 1]) == Names(es[..i]) + EntryName(es[i]);
      match es[i] {
        case Unreadable =>
        case Found(path) =>
          match FileName(path) {
            case None =>
            case Some(name) =>
              if ValidUtf8(name) {
                collected := collected + [name];
              }
          }
      }
      i := i + 1;
    }
    assert es[..|es|] == es;
    kubeconfigs := SortNames(collected);
  }

  /** A glob path whose last segment is a proper name has that segment as
      its file name. */
  lemma FileNameIsLastSegment(path: Bytes)
    requires LastSegment(path) != [] && LastSegment(path) != Str(".") && LastSegment(path) != Str("..")
    ensures FileName(path) == Some(LastSegment(path))
  {
    var parts := Split(path, SLASH);
    assert parts == parts[..|parts| - 1] + [LastSegment(path)];
  }

  /** A name is collected exactly when some entry yields it. */
  lemma {:induction false} NamesYielded(es: seq<GlobEntry>, name: Bytes)
    ensures name in Names(es) <==> exists i :: 0 <= i < |es| && Yields(es[i], name)
  {
    if es != [] {
      var init := es[..|es| - 1];
      NamesYielded(init, name);
      if name in Names(es) && name !in Names(init) {
        assert Yields(es[|es| - 1], name);
      }
      if i :| 0 <= i < |es| && Yields(es[i], name) {
        if i < |es| - 1 {
          assert init[i] == es[i];
        }
      }
    }
  }

  /** Discovery returns the yielded names, sorted ascending, each as often
      as it was yielded, and nothing without `HOME` or for a bad pattern. */
  lemma DiscoverSortedPermutation(home: Option<Bytes>, glob: Bytes -> GlobResult)
    ensures Sorted(Discover(home, glob))
    ensures home.None? ==> Discover(home, glob) == []
    ensures home.Some? && glob(Pattern(home.value)).PatternError? ==> Discover(home, glob) == []
    ensures home.Some? && glob(Pattern(home.value)).Paths? ==>
              multiset(Discover(home, glob)) == multiset(Names(glob(Pattern(home.value)).entries))
  {
    if home.Some? && glob(Pattern(home.value)).Paths? {
      SortCorrect(Names(glob(Pattern(home.value)).entries));
    }
  }

  /** A name is discovered exactly when a readable glob path has it as its
      file name and it is well-formed UTF-8. */
  lemma DiscoveredIff(home: Bytes, glob: Bytes -> GlobResult, name: Bytes)
    requires glob(Pattern(home)).Paths?
    ensures name in Discover(Some(home), glob) <==>
              exists i :: 0 <= i < |glob(Pattern(home)).entries| && Yields(glob(Pattern(home)).entries[i], name)
  {
    var es := glob(Pattern(home)).entries;
    SortMembers(Names(es), name);
    NamesYielded(es, name);
  }

  /** Every discovered name is well-formed UTF-8 and, given the glob
      library's promise, ends with `.kubeconfig`. */
  lemma DiscoveredNamesEndWithSuffix(home: Option<Bytes>, glob: Bytes -> GlobResult)
    requires home.Some? ==> MatchesPattern(glob(Pattern(home.value)))
    ensures forall n :: n in Discover(home, glob) ==> ValidUtf8(n) && EndsWith(n, SUFFIX)
  {
    if home.Some? && glob(Pattern(home.value)).Paths? {
      var es := glob(Pattern(home.value)).entries;
      forall n | n in Discover(home, glob) ensures ValidUtf8(n) && EndsWith(n, SUFFIX) {
        DiscoveredIff(home.value, glob, n);
        var i :| 0 <= i < |es| && Yields(es[i], n);
        var last := LastSegment(es[i].path);
        assert EndsWith(last, SUFFIX);
        FileNameIsLastSegment(es[i].path);
      }
    }
  }

  // ---------------------------------------------------------------------------
  // Fixed texts

  const NO_CONFIGS := Line(Str("No kubeconfig files found in ~/.kube/*.kubeconfig"))

  const LIST_PREFIX := Str("Available kubeconfigs: ")

  /** The listing line `--list` prints and the help ends with. */
  function Listing(configs: seq<Bytes>): Bytes {
    if configs == [] then NO_CONFIGS else Line(LIST_PREFIX + Join(configs, Str(" ")))
  }

  /** The usage block `show_help` prints before the listing. */
  const USAGE :=
    Line(Str("Usage: kcontext <kubeconfig-name>\n"))
    + Line(Str("Setup: Add to your shell config:"))
    + Line(Str("  Bash:  eval \"$(kcontext --init bash)\""))
    + Line(Str("  Zsh:   eval \"$(kcontext --init zsh)\""))
    + Line(Str("  Fish:  kcontext --init fish | source\n"))
    + Line(Str("Options:"))
    + Line(Str("  --init <shell>  Generate shell integration (bash, zsh, fish)"))
    + Line(Str("  --list          List available kubeconfig files"))
    + Line(Str("  --version       Show version"))
    + Line(Str("  --shell         Output shell command (for eval integration)\n"))

  /** The usage block starts with the `U` of `Usage:`. */
  lemma UsageFirstByte()
    ensures USAGE != [] && USAGE[0] == 'U' as int as byte
  {
    var first := Line(Str("Usage: kcontext <kubeconfig-name>\n"));
    assert first[0] == 'U' as int as byte;
    assert USAGE[..|first|] == first;
  }

  /** `show_help`. */
  function ShowHelp(configs: seq<Bytes>): Bytes {
    USAGE + Listing(configs)
  }

  function NotFound(config: Bytes): Bytes {
    Line(Str("Error: kubeconfig '") + config + Str("' not found"))
  }

  const WRAPPER_MISSING :=
    Line(Str("Error: Shell integration not loaded. Run setup:"))
    + Line(Str("  eval \"$(kcontext --init bash)\"  # Add to ~/.bashrc"))

  const EXPORT_PREFIX := Str("export KUBECONFIG='")

  /** The selected file: plain concatenation, no path cleaning. */
  function KubeconfigPath(home: Bytes, config: Bytes): Bytes {
    home + Str("/.kube/") + config
  }

  /** The command the wrapper evaluates; no quoting of the path, no newline. */
  function Export(path: Bytes): Bytes {
    EXPORT_PREFIX + path + Str("'")
  }

  // ---------------------------------------------------------------------------
  // Dispatch

  /** `main`: the first of version, init, list, named selection and help
      that applies decides the run. `home` is the result of `env::var("HOME")`
      (see `EnvVar`) and serves both reads of it. */
  function Run(cli: Cli, version: Bytes, home: Option<Bytes>, glob: Bytes -> GlobResult): Outcome {
    if cli.version then Printed(Line(Str("kcontext version ") + version))
    else if cli.init.Some? then ShellInit.PrintShellInit(cli.init.value)
    else
      var configs := Discover(home, glob);
      if cli.list then Printed(Listing(configs))
      else
        match cli.config
        case None => Printed(ShowHelp(configs))
        case Some(config) =>
          if config !in configs then Outcome(ShowHelp(configs), NotFound(config), 1)
          else if cli.shell then Printed(Export(KubeconfigPath(home.GetOr(Str(".")), config)))
          else Outcome([], WRAPPER_MISSING, 1)
  }

  /** `--version` wins over every other flag and argument. */
  lemma VersionFirst(cli: Cli, other: Cli, version: Bytes, home: Option<Bytes>, home': Option<Bytes>,
                     glob: Bytes -> GlobResult, glob': Bytes -> GlobResult)
    requires cli.version && other.version
    ensures Run(cli, version, home, glob) == Run(other, version, home', glob')
    ensures Run(cli, version, home, glob) == Outcome(Str("kcontext version ") + version + [NEWLINE], [], 0)
  {
  }

  /** Without `--version`, `--init` wins and discovery is not consulted;
      `--init ""` reaches the unsupported-shell error. */
  lemma InitSecond(cli: Cli, version: Bytes, home: Option<Bytes>, glob: Bytes -> GlobResult)
    requires !cli.version && cli.init.Some?
    ensures Run(cli, version, home, glob) == ShellInit.PrintShellInit(cli.init.value)
    ensures cli.init.value == [] ==>
              Run(cli, version, home, glob) == Outcome([], ShellInit.UnsupportedShell([]), 1)
  {
    ShellInit.CaseSensitiveNames();
  }

  /** Then `--list` wins over a name and over `--shell`. */
  lemma ListThird(cli: Cli, version: Bytes, home: Option<Bytes>, glob: Bytes -> GlobResult)
    requires !cli.version && cli.init.None? && cli.list
    ensures Run(cli, version, home, glob) == Outcome(Listing(Discover(home, glob)), [], 0)
  {
  }

  /** With no name and no mode flag the help is shown and the run succeeds. */
  lemma HelpLast(cli: Cli, version: Bytes, home: Option<Bytes>, glob: Bytes -> GlobResult)
    requires !cli.version && cli.init.None? && !cli.list && cli.config.None?
    ensures Run(cli, version, home, glob) == Outcome(ShowHelp(Discover(home, glob)), [], 0)
  {
  }

  /** An unknown name: the error on standard error, the help on standard
      output, status 1, and never an export command. */
  lemma UnknownName(cli: Cli, version: Bytes, home: Option<Bytes>, glob: Bytes -> GlobResult)
    requires !cli.version && cli.init.None? && !cli.list && cli.config.Some?
    requires cli.config.value !in Discover(home, glob)
    ensures Run(cli, version, home, glob).stderr ==
              Str("Error: kubeconfig '") + cli.config.value + Str("' not found") + [NEWLINE]
    ensures Run(cli, version, home, glob).stdout == ShowHelp(Discover(home, glob))
    ensures Run(cli, version, home, glob).code == 1
    ensures !StartsWith(Run(cli, version, home, glob).stdout, EXPORT_PREFIX)
  {
    UsageFirstByte();
    assert EXPORT_PREFIX[0] == 'e' as int as byte;
  }

  /** A discovered name with `--shell`: exactly the export command for
      `HOME/.kube/<name>`, ending in the closing quote, and nothing else. */
  lemma ExportDiscovered(cli: Cli, version: Bytes, home: Option<Bytes>, glob: Bytes -> GlobResult)
    requires !cli.version && cli.init.None? && !cli.list && cli.config.Some? && cli.shell
    requires cli.config.value in Discover(home, glob)
    ensures home.Some?
    ensures Run(cli, version, home, glob) ==
              Outcome(Str("export KUBECONFIG='") + home.value + Str("/.kube/") + cli.config.value + Str("'"), [], 0)
    ensures Run(cli, version, home, glob).stdout[|Run(cli, version, home, glob).stdout| - 1] != NEWLINE
  {
  }

  /** A discovered name without `--shell`: the two-line setup instruction on
      standard error, nothing on standard output, status 1. */
  lemma WrapperNotLoaded(cli: Cli, version: Bytes, home: Option<Bytes>, glob: Bytes -> GlobResult)
    requires !cli.version && cli.init.None? && !cli.list && cli.config.Some? && !cli.shell
    requires cli.config.value in Discover(home, glob)
    ensures Run(cli, version, home, glob) == Outcome([], WRAPPER_MISSING, 1)
  {
  }

  /** Without `HOME` nothing is discovered, so every name is unknown: the
      `"."` fallback in the export branch is never used. */
  lemma HomeFallbackUnused(cli: Cli, version: Bytes, glob: Bytes -> GlobResult)
    requires !cli.version && cli.init.None? && !cli.list && cli.config.Some?
    ensures Run(cli, version, None, glob) == Outcome(ShowHelp([]), NotFound(cli.config.value), 1)
  {
  }

  /** The run succeeds exactly for the informational modes and for an
      export of a discovered name; every failure has status 1. */
  lemma ExitStatus(cli: Cli, version: Bytes, home: Option<Bytes>, glob: Bytes -> GlobResult)
    ensures Run(cli, version, home, glob).code == 0 || Run(cli, version, home, glob).code == 1
    ensures Run(cli, version, home, glob).code == 0 <==>
              cli.version
              || (cli.init.Some? && exists sh: ShellInit.Shell :: cli.init.value == sh.Name())
              || (cli.init.None? &&
                  (cli.list || cli.config.None? || (cli.config.value in Discover(home, glob) && cli.shell)))
  {
    if !cli.version && cli.init.Some? {
      ShellInit.PrintShellInitSucceedsIff(cli.init.value);
    }
  }

  /** The help ends with the listing line `--list` prints. */
  lemma HelpEndsWithListing(configs: seq<Bytes>)
    ensures EndsWith(ShowHelp(configs), Listing(configs))
  {
    assert ShowHelp(configs)[|USAGE|..] == Listing(configs);
  }
}
