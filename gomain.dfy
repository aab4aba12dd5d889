/** The Go binary (main.go): discovery, the mode dispatch of `main` with
    its linear membership search, `showHelp` and `printShellInit`. The
    parsed flags, the value of `HOME`, `filepath.Join`, `filepath.Glob` and
    the three script texts of shell_init.go enter as parameters. */
module GoMain {
  import opened ByteText
  import opened Sorting
  import opened Process

  /** The flags after `flag.Parse`; `args` is `flag.Args()`. An unset
      `--init` is the empty string. */
  datatype Flags = Flags(version: bool, list: bool, shell: bool, init: Bytes, args: seq<Bytes>)

  /** What `filepath.Glob(pattern)` returns. */
  datatype GlobResult = BadPattern | Matches(paths: seq<Bytes>)

  /** The shell integration texts `bashInit`, `zshInit` and `fishInit`. */
  datatype Scripts = Scripts(bash: Bytes, zsh: Bytes, fish: Bytes)

  const VERSION := Str("0.0.1")

  const SUFFIX := Str(".kubeconfig")

  /** The pattern discovery globs; `join` is `filepath.Join`. */
  function Pattern(home: Bytes, join: seq<Bytes> -> Bytes): Bytes {
    join([join([home, Str(".kube")]), Str("*.kubeconfig")])
  }

  /** The glob library's promise for that pattern: the last segment of
      every match ends with `.kubeconfig`. */
  predicate MatchesPattern(g: GlobResult) {
    g.Matches? ==> forall i :: 0 <= i < |g.paths| ==> EndsWith(LastSegment(g.paths[i]), SUFFIX)
  }

  // ---------------------------------------------------------------------------
  // Discovery

  function TrimTrailingSlashes(p: Bytes): (q: Bytes)
    ensures q == [] || q[|q| - 1] != SLASH
  {
    if p != [] && p[|p| - 1] == SLASH then TrimTrailingSlashes(p[..|p| - 1]) else p
  }

  /** `filepath.Base` on Unix: `.` for the empty path, `/` for a path of
      slashes, else the last element after trailing slashes are removed. */
  function Base(p: Bytes): (b: Bytes)
    ensures b != []
    ensures SLASH in b ==> b == [SLASH]
  {
    if p == [] then Str(".")
    else
      var q := TrimTrailingSlashes(p);
      if q == [] then [SLASH] else LastSegmentNonEmpty(q); LastSegment(q)
  }

  /** The basenames the append loop collects, in match order. */
  function Bases(ms: seq<Bytes>): (bs: seq<Bytes>)
    ensures |bs| == |ms|
  {
    if ms == [] then [] else Bases(ms[..|ms| - 1]) + [Base(ms[|ms| - 1])]
  }

  /** `getKubeconfigs`: nothing for an empty `HOME` or a bad pattern,
      otherwise the basenames of all matches sorted ascending. */
  function Discover(home: Bytes, join: seq<Bytes> -> Bytes, glob: Bytes -> GlobResult): seq<Bytes> {
    if home == [] then []
    else
      match glob(Pattern(home, join))
      case BadPattern => []
      case Matches(ms) => Sort(Bases(ms))
  }

  /** `getKubeconfigs` as the source runs it: append each basename, then
      `sort.Strings` in place. */
  method GetKubeconfigs(home: Bytes, join: seq<Bytes> -> Bytes, glob: Bytes -> GlobResult)
    returns (configs: seq<Bytes>)
    ensures configs == Discover(home, join, glob)
  {
    if home == [] {
      return [];
    }
    var result := glob(Pattern(home, join));
    if result.BadPattern? {
      return [];
    }
    var matches := result.paths;
    configs := [];
    var i := 0;
    while i < |matches|
      invariant 0 <= i <= |matches|
      invariant configs == Bases(matches[..i])
    {
      assert matches[..i + 1][..i] == matches[..i];
      var base := Base(matches[i]);
      configs := configs + [base];
      i := i + 1;
    }
    assert matches[..|matches|] == matches;
    configs := SortNames(configs);
  }

  /** A match whose last segment is not empty has it as its basename. */
  lemma BaseIsLastSegment(p: Bytes)
    requires LastSegment(p) != []
    ensures Base(p) == LastSegment(p)
  {
    if p != [] && p[|p| - 1] == SLASH {
      LastSegmentAfterSlash(p);
    }
    assert p != [];
  }

  lemma {:induction false} BasesAt(ms: seq<Bytes>, i: int)
    requires 0 <= i < |ms|
    ensures Bases(ms)[i] == Base(ms[i])
  {
    if i < |ms| - 1 {
      BasesAt(ms[..|ms| - 1], i);
    }
  }

  /** Discovery returns the basenames of the matches, sorted ascending, as
      a permutation; nothing for an empty `HOME` or a bad pattern. */
  lemma DiscoverSortedPermutation(home: Bytes, join: seq<Bytes> -> Bytes, glob: Bytes -> GlobResult)
    ensures Sorted(Discover(home, join, glob))
    ensures home == [] ==> Discover(home, join, glob) == []
    ensures home != [] && glob(Pattern(home, join)).BadPattern? ==> Discover(home, join, glob) == []
    ensures home != [] && glob(Pattern(home, join)).Matches? ==>
              multiset(Discover(home, join, glob)) == multiset(Bases(glob(Pattern(home, join)).paths))
  {
    if home != [] && glob(Pattern(home, join)).Matches? {
      SortCorrect(Bases(glob(Pattern(home, join)).paths));
    }
  }

  /** A name is discovered exactly when it is the basename of a match. */
  lemma DiscoveredIff(home: Bytes, join: seq<Bytes> -> Bytes, glob: Bytes -> GlobResult, name: Bytes)
    requires home != [] && glob(Pattern(home, join)).Matches?
    ensures name in Discover(home, join, glob) <==>
              exists i :: 0 <= i < |glob(Pattern(home, join)).paths| && Base(glob(Pattern(home, join)).paths[i]) == name
  {
    var ms := glob(Pattern(home, join)).paths;
    SortMembers(Bases(ms), name);
    if name in Bases(ms) {
      var i :| 0 <= i < |ms| && Bases(ms)[i] == name;
      BasesAt(ms, i);
    }
    if i :| 0 <= i < |ms| && Base(ms[i]) == name {
      BasesAt(ms, i);
    }
  }

  /** Given the glob library's promise, every discovered name is at least
      11 bytes long and ends with `.kubeconfig`. */
  lemma DiscoveredNamesEndWithSuffix(home: Bytes, join: seq<Bytes> -> Bytes, glob: Bytes -> GlobResult)
    requires home != [] ==> MatchesPattern(glob(Pattern(home, join)))
    ensures forall n :: n in Discover(home, join, glob) ==> |n| >= 11 && EndsWith(n, SUFFIX)
  {
    if home != [] && glob(Pattern(home, join)).Matches? {
      var ms := glob(Pattern(home, join)).paths;
      forall n | n in Discover(home, join, glob) ensures |n| >= 11 && EndsWith(n, SUFFIX) {
        DiscoveredIff(home, join, glob, n);
        var i :| 0 <= i < |ms| && Base(ms[i]) == n;
        assert EndsWith(LastSegment(ms[i]), SUFFIX);
        BaseIsLastSegment(ms[i]);
      }
    }
  }

  /** The validation loop of `main`: scan until the name is met. */
  method Contains(configs: seq<Bytes>, config: Bytes) returns (found: bool)
    ensures found <==> config in configs
  {
    found := false;
    var i := 0;
    while i < |configs|
      invariant 0 <= i <= |configs|
      invariant !found && config !in configs[..i]
    {
      if configs[i] == config {
        found := true;
        break;
      }
      assert configs[..i + 1] == configs[..i] + [configs[i]];
      i := i + 1;
    }
    assert !found ==> configs[..|configs|] == configs;
  }

  // ---------------------------------------------------------------------------
  // Fixed texts

  const LIST_PREFIX := Str("Available kubeconfigs: ")

  /** The listing `--list` prints. */
  function Listing(configs: seq<Bytes>): Bytes {
    if |configs| > 0 then LIST_PREFIX + Join(configs, Str(" ")) + Str("\n")
    else Line(Str("No kubeconfig files found in ~/.kube/*.kubeconfig"))
  }

  /** The usage block `showHelp` prints before the listing. */
  const USAGE :=
    Str("Usage: kcontext <kubeconfig-name>\n\n")
    + Str("Setup: Add to your shell config:\n")
    + Str("  Bash:  eval \"$(kcontext --init bash)\"\n")
    + Str("  Zsh:   eval \"$(kcontext --init zsh)\"\n")
    + Str("  Fish:  kcontext --init fish | source\n\n")
    + Str("Options:\n")
    + Str("  --init <shell>  Generate shell integration (bash, zsh, fish)\n")
    + Str("  --list          List available kubeconfig files\n")
    + Str("  --version       Show version\n")
    + Str("  --shell         Output shell command (for eval integration)\n")
    + Str("\n")

  /** `showHelp`. */
  function ShowHelp(configs: seq<Bytes>): Bytes {
    USAGE + (if |configs| > 0 then LIST_PREFIX + Join(configs, Str(" ")) + Str("\n")
             else Str("No kubeconfig files found in ~/.kube/*.kubeconfig\n"))
  }

  function NotFound(config: Bytes): Bytes {
    Str("Error: kubeconfig '") + config + Str("' not found\n")
  }

  const WRAPPER_MISSING :=
    Str("Error: Shell integration not loaded. Run setup:\n")
    + Str("  eval \"$(kcontext --init bash)\"  # Add to ~/.bashrc\n")

  function UnsupportedShell(shell: Bytes): Bytes {
    Str("Error: unsupported shell '") + shell + Str("'. Supported: bash, zsh, fish\n")
  }

  /** `printShellInit`: the script for `bash`, `zsh` or `fish`, else an
      error and status 1. */
  function PrintShellInit(shell: Bytes, scripts: Scripts): Outcome {
    if shell == Str("bash") then Printed(scripts.bash)
    else if shell == Str("zsh") then Printed(scripts.zsh)
    else if shell == Str("fish") then Printed(scripts.fish)
    else Outcome([], UnsupportedShell(shell), 1)
  }

  /** The export command; `join` builds the path as `filepath.Join` does. */
  function Export(home: Bytes, join: seq<Bytes> -> Bytes, config: Bytes): Bytes {
    Str("export KUBECONFIG='") + join([home, Str(".kube"), config]) + Str("'")
  }

  // ---------------------------------------------------------------------------
  // Dispatch

  /** `main`: version, then a non-empty `--init`, then `--list`, then help
      if there is no argument, else the first argument is the name. */
  function Run(flags: Flags, home: Bytes, join: seq<Bytes> -> Bytes, glob: Bytes -> GlobResult,
               scripts: Scripts): Outcome
  {
    if flags.version then Printed(Str("kcontext version ") + VERSION + Str("\n"))
    else if flags.init != [] then PrintShellInit(flags.init, scripts)
    else
      var configs := Discover(home, join, glob);
      if flags.list then Printed(Listing(configs))
      else if |flags.args| == 0 then Printed(ShowHelp(configs))
      else
        var config := flags.args[0];
        if config !in configs then Outcome(ShowHelp(configs), NotFound(config), 1)
        else if flags.shell then Printed(Export(home, join, config))
        else Outcome([], WRAPPER_MISSING, 1)
  }

  /** `main` as the source runs it, with the discovery and the membership
      loops. */
  method Execute(flags: Flags, home: Bytes, join: seq<Bytes> -> Bytes, glob: Bytes -> GlobResult,
                 scripts: Scripts) returns (out: Outcome)
    ensures out == Run(flags, home, join, glob, scripts)
  {
    if flags.version {
      return Printed(Str("kcontext version ") + VERSION + Str("\n"));
    }
    if flags.init != [] {
      return PrintShellInit(flags.init, scripts);
    }
    var configs := GetKubeconfigs(home, join, glob);
    if flags.list {
      return Printed(Listing(configs));
    }
    if |flags.args| == 0 {
      return Printed(ShowHelp(configs));
    }
    var config := flags.args[0];
    var found := Contains(configs, config);
    if !found {
      return Outcome(ShowHelp(configs), NotFound(config), 1);
    }
    if flags.shell {
      out := Printed(Export(home, join, config));
    } else {
      out := Outcome([], WRAPPER_MISSING, 1);
    }
  }

  /** `-version` wins over every other flag and argument. */
  lemma VersionFirst(flags: Flags, other: Flags, home: Bytes, home': Bytes,
                     join: seq<Bytes> -> Bytes, glob: Bytes -> GlobResult, glob': Bytes -> GlobResult,
                     scripts: Scripts, scripts': Scripts)
    requires flags.version && other.version
    ensures Run(flags, home, join, glob, scripts) == Run(other, home', join, glob', scripts')
    ensures Run(flags, home, join, glob, scripts) == Outcome(Str("kcontext version 0.0.1\n"), [], 0)
  {
    assert Str("kcontext version ") + VERSION + Str("\n") == Str("kcontext version 0.0.1\n");
  }

  /** Without `-version`, a non-empty `-init` wins; an empty one is as if
      the flag were absent. */
  lemma InitSecond(flags: Flags, home: Bytes, join: seq<Bytes> -> Bytes, glob: Bytes -> GlobResult,
                   scripts: Scripts)
    requires !flags.version
    ensures flags.init != [] ==> Run(flags, home, join, glob, scripts) == PrintShellInit(flags.init, scripts)
    ensures flags.init == [] ==>
              forall s :: Run(flags, home, join, glob, scripts) == Run(flags.(init := []), home, join, glob, s)
  {
  }

  /** Then `-list` wins over arguments and `-shell`. */
  lemma ListThird(flags: Flags, home: Bytes, join: seq<Bytes> -> Bytes, glob: Bytes -> GlobResult,
                  scripts: Scripts)
    requires !flags.version && flags.init == [] && flags.list
    ensures Run(flags, home, join, glob, scripts) == Outcome(Listing(Discover(home, join, glob)), [], 0)
  {
  }

  /** No argument and no mode flag: help, status 0. */
  lemma HelpWithoutArguments(flags: Flags, home: Bytes, join: seq<Bytes> -> Bytes, glob: Bytes -> GlobResult,
                             scripts: Scripts)
    requires !flags.version && flags.init == [] && !flags.list && flags.args == []
    ensures Run(flags, home, join, glob, scripts) == Outcome(ShowHelp(Discover(home, join, glob)), [], 0)
  {
  }

  /** Only the first argument is the name; later ones are ignored. */
  lemma FirstArgumentIsName(flags: Flags, rest: seq<Bytes>, home: Bytes, join: seq<Bytes> -> Bytes,
                            glob: Bytes -> GlobResult, scripts: Scripts)
    requires |flags.args| > 0
    ensures Run(flags, home, join, glob, scripts) ==
              Run(flags.(args := [flags.args[0]] + rest), home, join, glob, scripts)
  {
  }

  /** An unknown name: the error, the help on standard output, status 1. */
  lemma UnknownName(flags: Flags, home: Bytes, join: seq<Bytes> -> Bytes, glob: Bytes -> GlobResult,
                    scripts: Scripts)
    requires !flags.version && flags.init == [] && !flags.list && |flags.args| > 0
    requires flags.args[0] !in Discover(home, join, glob)
    ensures Run(flags, home, join, glob, scripts) ==
              Outcome(ShowHelp(Discover(home, join, glob)),
                      Str("Error: kubeconfig '") + flags.args[0] + Str("' not found\n"), 1)
  {
  }

  /** A discovered name with `-shell`: exactly the export of the joined
      path, no newline, status 0. */
  lemma ExportDiscovered(flags: Flags, home: Bytes, join: seq<Bytes> -> Bytes, glob: Bytes -> GlobResult,
                         scripts: Scripts)
    requires !flags.version && flags.init == [] && !flags.list && |flags.args| > 0 && flags.shell
    requires flags.args[0] in Discover(home, join, glob)
    ensures home != []
    ensures Run(flags, home, join, glob, scripts) ==
              Outcome(Str("export KUBECONFIG='") + join([home, Str(".kube"), flags.args[0]]) + Str("'"), [], 0)
  {
  }

  /** A discovered name without `-shell`: the setup instruction, status 1. */
  lemma WrapperNotLoaded(flags: Flags, home: Bytes, join: seq<Bytes> -> Bytes, glob: Bytes -> GlobResult,
                         scripts: Scripts)
    requires !flags.version && flags.init == [] && !flags.list && |flags.args| > 0 && !flags.shell
    requires flags.args[0] in Discover(home, join, glob)
    ensures Run(flags, home, join, glob, scripts) == Outcome([], WRAPPER_MISSING, 1)
  {
  }

  /** `printShellInit` succeeds exactly for the three names, printing the
      matching text; otherwise only the error naming the shell. */
  lemma PrintShellInitSelects(shell: Bytes, scripts: Scripts)
    ensures shell == Str("bash") ==> PrintShellInit(shell, scripts) == Outcome(scripts.bash, [], 0)
    ensures shell == Str("zsh") ==> PrintShellInit(shell, scripts) == Outcome(scripts.zsh, [], 0)
    ensures shell == Str("fish") ==> PrintShellInit(shell, scripts) == Outcome(scripts.fish, [], 0)
    ensures PrintShellInit(shell, scripts).code == 0 <==>
              shell == Str("bash") || shell == Str("zsh") || shell == Str("fish")
    ensures PrintShellInit(shell, scripts).code != 0 ==>
              PrintShellInit(shell, scripts) == Outcome([], UnsupportedShell(shell), 1)
  {
    assert Str("zsh") != Str("bash");
    assert Str("fish")[0] != Str("bash")[0];
  }

  /** The run succeeds exactly for the informational modes and an export
      of a discovered name; every failure has status 1. */
  lemma ExitStatus(flags: Flags, home: Bytes, join: seq<Bytes> -> Bytes, glob: Bytes -> GlobResult,
                   scripts: Scripts)
    ensures Run(flags, home, join, glob, scripts).code == 0 || Run(flags, home, join, glob, scripts).code == 1
    ensures Run(flags, home, join, glob, scripts).code == 0 <==>
              flags.version
              || (flags.init != [] && (flags.init == Str("bash") || flags.init == Str("zsh") || flags.init == Str("fish")))
              || (flags.init == [] &&
                  (flags.list || flags.args == [] || (flags.args[0] in Discover(home, join, glob) && flags.shell)))
  {
    PrintShellInitSelects(flags.init, scripts);
  }

  /** The help ends with the same line `-list` prints. */
  lemma HelpEndsWithListing(configs: seq<Bytes>)
    ensures EndsWith(ShowHelp(configs), Listing(configs))
  {
    var tail := ShowHelp(configs)[|USAGE|..];
    if |configs| == 0 {
      assert Str("No kubeconfig files found in ~/.kube/*.kubeconfig\n")
          == Line(Str("No kubeconfig files found in ~/.kube/*.kubeconfig"));
    }
    assert tail == Listing(configs);
  }
}
