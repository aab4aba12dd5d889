/** How the parts fit together: the completion scripts read back exactly
    what the listing prints, the wrapper feeds the binary's export command
    to the shell, and where the Rust and Go binaries agree and differ. */
module Agreement {
  import opened ByteText
  import opened Sorting
  import opened Process
  import ShellInit
  import RustMain
  import GoMain

  // ---------------------------------------------------------------------------
  // Completion reads the listing

  /** `sed 's/P//'` applied to one line: the first occurrence of `pat`
      removed, the line unchanged when there is none. */
  function SedDeleteFirst(pat: Bytes, line: Bytes): Bytes
    decreases |line|
  {
    if StartsWith(line, pat) then line[|pat|..]
    else if line == [] then []
    else [line[0]] + SedDeleteFirst(pat, line[1..])
  }

  /** The filtered text of one line of `--list` output: the command
      substitution drops the trailing newline, `sed` the prefix. */
  function Filtered(listing: Bytes): Bytes {
    var line := if listing != [] && listing[|listing| - 1] == NEWLINE then listing[..|listing| - 1] else listing;
    SedDeleteFirst(ShellInit.COMPLETION_PREFIX, line)
  }

  /** The candidates when the filtered text is split into words, as bash's
      `compgen -W` does. */
  function WordCandidates(listing: Bytes): seq<Bytes> {
    Split(Filtered(listing), SPACE)
  }

  /** The candidates the zsh script offers: `${(f)...}` splits the filtered
      text at newlines only. */
  function LineCandidates(listing: Bytes): seq<Bytes> {
    Split(Filtered(listing), NEWLINE)
  }

  lemma FilteredListing(configs: seq<Bytes>)
    requires |configs| > 0
    ensures Filtered(RustMain.Listing(configs)) == Join(configs, [SPACE])
  {
    var joined := Join(configs, Str(" "));
    var listing := RustMain.Listing(configs);
    assert listing == RustMain.LIST_PREFIX + joined + [NEWLINE];
    assert listing[..|listing| - 1] == ShellInit.COMPLETION_PREFIX + joined;
    assert StartsWith(ShellInit.COMPLETION_PREFIX + joined, ShellInit.COMPLETION_PREFIX);
    assert (ShellInit.COMPLETION_PREFIX + joined)[|ShellInit.COMPLETION_PREFIX|..] == joined;
    assert Str(" ") == [SPACE];
  }

  /** For a non-empty listing of names without spaces, splitting the
      filtered line into words recovers exactly the discovered names, in
      order, from the Rust listing line. */
  lemma CompletionRecoversRustListing(configs: seq<Bytes>)
    requires |configs| > 0
    requires forall k :: 0 <= k < |configs| ==> SPACE !in configs[k]
    ensures WordCandidates(RustMain.Listing(configs)) == configs
  {
    FilteredListing(configs);
    SplitJoin(configs, SPACE);
  }

  /** A join at spaces of parts without the byte `b` (not a space) lacks `b`. */
  lemma {:induction false} JoinLacks(parts: seq<Bytes>, b: byte)
    requires b != SPACE
    requires forall k :: 0 <= k < |parts| ==> b !in parts[k]
    ensures b !in Join(parts, [SPACE])
    decreases |parts|
  {
    if |parts| > 1 { JoinLacks(parts[1..], b); }
  }

  /** The zsh completion as written: with two or more names, all of them
      arrive as one candidate, the names joined by spaces. */
  lemma ZshOffersJoinedCandidate(configs: seq<Bytes>)
    requires |configs| >= 2
    requires forall k :: 0 <= k < |configs| ==> NEWLINE !in configs[k]
    ensures LineCandidates(RustMain.Listing(configs)) == [Join(configs, [SPACE])]
    ensures LineCandidates(RustMain.Listing(configs)) != configs
  {
    FilteredListing(configs);
    JoinLacks(configs, NEWLINE);
    SplitWithoutSeparator(Join(configs, [SPACE]), NEWLINE);
  }

  /** The same holds for the Go listing line. */
  lemma CompletionRecoversGoListing(configs: seq<Bytes>)
    requires |configs| > 0
    requires forall k :: 0 <= k < |configs| ==> SPACE !in configs[k]
    ensures WordCandidates(GoMain.Listing(configs)) == configs
  {
    ListingsAgree(configs);
    CompletionRecoversRustListing(configs);
  }

  /** `sed` leaves a line unchanged when the pattern's first byte does not
      occur in it. */
  lemma {:induction false} SedWithoutFirstByte(pat: Bytes, line: Bytes)
    requires pat != [] && pat[0] !in line
    ensures SedDeleteFirst(pat, line) == line
    decreases |line|
  {
    if line != [] {
      assert !StartsWith(line, pat) by { assert line[0] != pat[0]; }
      SedWithoutFirstByte(pat, line[1..]);
      assert line == [line[0]] + line[1..];
    }
  }

  /** Two literals around a space. */
  /** Two literals around a space. */
  lemma StrWords(front: string, word: string, whole: string)
    requires whole == front + " " + word
    ensures Str(whole) == Str(front) + [SPACE] + Str(word)
  {
    StrAppend(front + " ", word);
    StrAppend(front, " ");
  }

  /** The six words of the not-found line. */
  const NOT_FOUND_WORDS := [Str("No"), Str("kubeconfig"), Str("files"), Str("found"), Str("in"), Str("~/.kube/*.kubeconfig")]

  /** Joining one more part at the end. */
  lemma {:induction false} JoinSnoc(parts: seq<Bytes>, x: Bytes)
    requires |parts| >= 1
    ensures Join(parts + [x], [SPACE]) == Join(parts, [SPACE]) + [SPACE] + x
    decreases |parts|
  {
    if |parts| > 1 {
      JoinSnoc(parts[1..], x);
      assert (parts + [x])[1..] == parts[1..] + [x];
    } else {
      assert (parts + [x])[1..] == [x];
    }
  }

  /** One more word behind a joined front. */
  lemma JoinWord(front: string, word: string, whole: string, parts: seq<Bytes>)
    requires whole == front + " " + word
    requires |parts| >= 1 && Join(parts, [SPACE]) == Str(front)
    ensures Join(parts + [Str(word)], [SPACE]) == Str(whole)
  {
    JoinSnoc(parts, Str(word));
    StrWords(front, word, whole);
  }

  lemma NotFoundWordsUpTo2()
    ensures Join([Str("No"), Str("kubeconfig")], [SPACE]) == Str("No kubeconfig")
  {
    assert Join([Str("No")], [SPACE]) == Str("No");
    JoinWord("No", "kubeconfig", "No kubeconfig", [Str("No")]);
    assert [Str("No"), Str("kubeconfig")] == [Str("No")] + [Str("kubeconfig")];
  }

  lemma NotFoundWordsUpTo3()
    ensures Join([Str("No"), Str("kubeconfig"), Str("files")], [SPACE]) == Str("No kubeconfig files")
  {
    NotFoundWordsUpTo2();
    JoinWord("No kubeconfig", "files", "No kubeconfig files", [Str("No"), Str("kubeconfig")]);
    assert [Str("No"), Str("kubeconfig"), Str("files")] == [Str("No"), Str("kubeconfig")] + [Str("files")];
  }

  lemma NotFoundWordsUpTo4()
    ensures Join([Str("No"), Str("kubeconfig"), Str("files"), Str("found")], [SPACE]) == Str("No kubeconfig files found")
  {
    NotFoundWordsUpTo3();
    JoinWord("No kubeconfig files", "found", "No kubeconfig files found", [Str("No"), Str("kubeconfig"), Str("files")]);
    assert [Str("No"), Str("kubeconfig"), Str("files"), Str("found")] == [Str("No"), Str("kubeconfig"), Str("files")] + [Str("found")];
  }

  lemma NotFoundWordsUpTo5()
    ensures Join([Str("No"), Str("kubeconfig"), Str("files"), Str("found"), Str("in")], [SPACE]) == Str("No kubeconfig files found in")
  {
    NotFoundWordsUpTo4();
    JoinWord("No kubeconfig files found", "in", "No kubeconfig files found in", [Str("No"), Str("kubeconfig"), Str("files"), Str("found")]);
    assert [Str("No"), Str("kubeconfig"), Str("files"), Str("found"), Str("in")] == [Str("No"), Str("kubeconfig"), Str("files"), Str("found")] + [Str("in")];
  }

  /** The not-found line is its six words joined by spaces. */
  lemma NotFoundWords()
    ensures Str("No kubeconfig files found in ~/.kube/*.kubeconfig") == Join(NOT_FOUND_WORDS, [SPACE])
  {
    NotFoundWordsUpTo5();
    JoinWord("No kubeconfig files found in", "~/.kube/*.kubeconfig", "No kubeconfig files found in ~/.kube/*.kubeconfig", [Str("No"), Str("kubeconfig"), Str("files"), Str("found"), Str("in")]);
    assert NOT_FOUND_WORDS == [Str("No"), Str("kubeconfig"), Str("files"), Str("found"), Str("in")] + [Str("~/.kube/*.kubeconfig")];
  }

  /** No word of the not-found line holds a space or the `A` that starts
      the `sed` pattern. */
  lemma NotFoundWordsShape()
    ensures forall k :: 0 <= k < |NOT_FOUND_WORDS| ==> SPACE !in NOT_FOUND_WORDS[k] && 65 !in NOT_FOUND_WORDS[k]
  {
  }

  /** With nothing discovered, the listing is the not-found line, which
      `sed` leaves as it is: bash's completion is offered its six words. */
  lemma EmptyListingCandidates()
    ensures WordCandidates(RustMain.Listing([])) == NOT_FOUND_WORDS
  {
    var line := Str("No kubeconfig files found in ~/.kube/*.kubeconfig");
    assert RustMain.Listing([]) == line + [NEWLINE];
    assert (line + [NEWLINE])[..|line|] == line;
    assert ShellInit.COMPLETION_PREFIX[0] == 65;
    NotFoundWords();
    NotFoundWordsShape();
    JoinLacks(NOT_FOUND_WORDS, 65);
    SedWithoutFirstByte(ShellInit.COMPLETION_PREFIX, line);
    SplitJoin(NOT_FOUND_WORDS, SPACE);
  }

  /** A name holding a space arrives as two candidates. */
  lemma SpacedNameSplits(a: Bytes, b: Bytes)
    requires SPACE !in a && SPACE !in b
    ensures WordCandidates(RustMain.Listing([a + [SPACE] + b])) == [a, b]
  {
    FilteredListing([a + [SPACE] + b]);
    SplitAppend(a, b, SPACE);
    SplitWithoutSeparator(a, SPACE);
    SplitWithoutSeparator(b, SPACE);
  }

  // ---------------------------------------------------------------------------
  // The wrapper and the binary together

  /** Through the wrapper, a discovered name makes the shell evaluate the
      export command for `HOME/.kube/<name>`, given that the binary run
      with `--shell <name>` parses to that selection. */
  lemma WrapperExportsDiscoveredName(sh: ShellInit.Shell, name: Bytes, version: Bytes, home: Bytes,
                                     glob: Bytes -> RustMain.GlobResult, binary: seq<Bytes> -> Outcome)
    requires !ShellInit.Forwards(sh, [name])
    requires binary([Str("--shell")] + [name]) ==
               RustMain.Run(RustMain.Cli(Some(name), false, false, true, None), version, Some(home), glob)
    requires name in RustMain.Discover(Some(home), glob)
    ensures ShellInit.Wrapper(sh, [name], binary) ==
              ShellInit.Evaluated(Str("export KUBECONFIG='") + home + Str("/.kube/") + name + Str("'"))
  {
  }

  /** Through the wrapper, an unknown name evaluates nothing and returns 1. */
  lemma WrapperRejectsUnknownName(sh: ShellInit.Shell, name: Bytes, version: Bytes, home: Option<Bytes>,
                                  glob: Bytes -> RustMain.GlobResult, binary: seq<Bytes> -> Outcome)
    requires !ShellInit.Forwards(sh, [name])
    requires binary([Str("--shell")] + [name]) ==
               RustMain.Run(RustMain.Cli(Some(name), false, false, true, None), version, home, glob)
    requires name !in RustMain.Discover(home, glob)
    ensures ShellInit.Wrapper(sh, [name], binary) == ShellInit.Failed(1)
  {
  }

  /** `kcontext -l` through the wrapper is run as `--shell -l`, which lists
      with status 0, so the shell evaluates the listing line as a command. */
  lemma WrapperEvaluatesShortListFlag(sh: ShellInit.Shell, version: Bytes, home: Option<Bytes>,
                                      glob: Bytes -> RustMain.GlobResult, binary: seq<Bytes> -> Outcome)
    requires binary([Str("--shell")] + [Str("-l")]) ==
               RustMain.Run(RustMain.Cli(None, false, true, true, None), version, home, glob)
    ensures ShellInit.Wrapper(sh, [Str("-l")], binary) ==
              ShellInit.Evaluated(RustMain.Listing(RustMain.Discover(home, glob)))
  {
    ShellInit.ShortFlagsNotForwarded(sh);
  }

  /** The wrapper's forwarding test with the short spellings `-l` and `-v`
      that the binary also accepts (src/main.rs:18, 22). */
  predicate ForwardsShortFlags(sh: ShellInit.Shell, args: seq<Bytes>) {
    ShellInit.Forwards(sh, args) || (|args| > 0 && (args[0] == Str("-l") || args[0] == Str("-v")))
  }

  /** The wrapper as it evidently should be: the short flags are forwarded
      like their long forms. */
  function CorrectedWrapper(sh: ShellInit.Shell, args: seq<Bytes>, binary: seq<Bytes> -> Outcome): ShellInit.WrapperResult {
    if ForwardsShortFlags(sh, args) then ShellInit.Forwarded(binary(args))
    else
      var out := binary([Str("--shell")] + args);
      if out.code == 0 then ShellInit.Evaluated(out.stdout) else ShellInit.Failed(out.code)
  }

  /** Through the corrected wrapper, `kcontext -l` shows the listing and
      evaluates nothing, as `kcontext --list` does. */
  lemma CorrectedWrapperShowsShortListing(sh: ShellInit.Shell, version: Bytes, home: Option<Bytes>,
                                          glob: Bytes -> RustMain.GlobResult, binary: seq<Bytes> -> Outcome)
    requires binary([Str("-l")]) == RustMain.Run(RustMain.Cli(None, false, true, false, None), version, home, glob)
    ensures CorrectedWrapper(sh, [Str("-l")], binary) ==
              ShellInit.Forwarded(Printed(RustMain.Listing(RustMain.Discover(home, glob))))
  {
    RustMain.ListThird(RustMain.Cli(None, false, true, false, None), version, home, glob);
  }

  /** For every other first argument the corrected wrapper is the wrapper
      as written. */
  lemma CorrectedWrapperAgrees(sh: ShellInit.Shell, args: seq<Bytes>, binary: seq<Bytes> -> Outcome)
    requires |args| == 0 || (args[0] != Str("-l") && args[0] != Str("-v"))
    ensures CorrectedWrapper(sh, args, binary) == ShellInit.Wrapper(sh, args, binary)
  {
  }

  // ---------------------------------------------------------------------------
  // Rust and Go

  /** Both print the same listing line. */
  lemma ListingsAgree(configs: seq<Bytes>)
    ensures RustMain.Listing(configs) == GoMain.Listing(configs)
  {
    if configs == [] {
      assert Line(Str("No kubeconfig files found in ~/.kube/*.kubeconfig"))
          == Line(Str("No kubeconfig files found in ~/.kube/*.kubeconfig"));
    } else {
      assert Str("\n") == [NEWLINE];
    }
  }

  /** `s` followed by a newline, as a literal and as `println!` writes it. */
  lemma LineOfLiteral(s: string, t: string)
    requires t == s + "\n"
    ensures Line(Str(s)) == Str(t)
  {
    StrAppend(s, "\n");
  }

  /** Both print the same usage block. */
  lemma UsagesAgree()
    ensures RustMain.USAGE == GoMain.USAGE
  {
    LineOfLiteral("Usage: kcontext <kubeconfig-name>\n", "Usage: kcontext <kubeconfig-name>\n\n");
    LineOfLiteral("Setup: Add to your shell config:", "Setup: Add to your shell config:\n");
    LineOfLiteral("  Bash:  eval \"$(kcontext --init bash)\"", "  Bash:  eval \"$(kcontext --init bash)\"\n");
    LineOfLiteral("  Zsh:   eval \"$(kcontext --init zsh)\"", "  Zsh:   eval \"$(kcontext --init zsh)\"\n");
    LineOfLiteral("  Fish:  kcontext --init fish | source\n", "  Fish:  kcontext --init fish | source\n\n");
    LineOfLiteral("Options:", "Options:\n");
    LineOfLiteral("  --init <shell>  Generate shell integration (bash, zsh, fish)", "  --init <shell>  Generate shell integration (bash, zsh, fish)\n");
    LineOfLiteral("  --list          List available kubeconfig files", "  --list          List available kubeconfig files\n");
    LineOfLiteral("  --version       Show version", "  --version       Show version\n");
    LineOfLiteral("  --shell         Output shell command (for eval integration)\n", "  --shell         Output shell command (for eval integration)\n\n");
    assert "  --shell         Output shell command (for eval integration)\n" + "\n"
        == "  --shell         Output shell command (for eval integration)\n\n";
    StrAppend("  --shell         Output shell command (for eval integration)\n", "\n");
  }

  /** Both print the same help, the same errors and the same wrapper
      instructions. */
  lemma TextsAgree(configs: seq<Bytes>, config: Bytes, shell: Bytes)
    ensures RustMain.ShowHelp(configs) == GoMain.ShowHelp(configs)
    ensures RustMain.NotFound(config) == GoMain.NotFound(config)
    ensures RustMain.WRAPPER_MISSING == GoMain.WRAPPER_MISSING
    ensures ShellInit.UnsupportedShell(shell) == GoMain.UnsupportedShell(shell)
  {
    UsagesAgree();
    ListingsAgree(configs);
    assert Str("' not found\n") == Str("' not found") + [NEWLINE] by { StrAppend("' not found", "\n"); }
    LineOfLiteral("Error: Shell integration not loaded. Run setup:", "Error: Shell integration not loaded. Run setup:\n");
    LineOfLiteral("  eval \"$(kcontext --init bash)\"  # Add to ~/.bashrc", "  eval \"$(kcontext --init bash)\"  # Add to ~/.bashrc\n");
    assert Str("'. Supported: bash, zsh, fish\n") == Str("'. Supported: bash, zsh, fish") + [NEWLINE] by {
      StrAppend("'. Supported: bash, zsh, fish", "\n");
    }
  }

  /** The Rust glob yields readable entries for exactly the Go matches. */
  predicate SamePaths(entries: seq<RustMain.GlobEntry>, paths: seq<Bytes>) {
    |entries| == |paths| && forall i :: 0 <= i < |paths| ==> entries[i] == RustMain.Found(paths[i])
  }

  /** Every match ends in a well-formed UTF-8 name with the suffix. */
  predicate TextualMatches(paths: seq<Bytes>) {
    forall i :: 0 <= i < |paths| ==>
      EndsWith(LastSegment(paths[i]), RustMain.SUFFIX) && ValidUtf8(LastSegment(paths[i]))
  }

  lemma {:induction false} NamesAreBases(entries: seq<RustMain.GlobEntry>, paths: seq<Bytes>)
    requires SamePaths(entries, paths) && TextualMatches(paths)
    ensures RustMain.Names(entries) == GoMain.Bases(paths)
  {
    if paths != [] {
      var n := |paths| - 1;
      NamesAreBases(entries[..n], paths[..n]);
      var last := LastSegment(paths[n]);
      RustMain.FileNameIsLastSegment(paths[n]);
      GoMain.BaseIsLastSegment(paths[n]);
      assert RustMain.EntryName(entries[n]) == [last];
    }
  }

  /** With a non-empty `HOME` that is UTF-8 text, the two discoveries agree
      on matches whose names are UTF-8 text. */
  lemma DiscoveriesAgree(home: Bytes, join: seq<Bytes> -> Bytes, paths: seq<Bytes>,
                         rglob: Bytes -> RustMain.GlobResult, gglob: Bytes -> GoMain.GlobResult)
    requires home != [] && ValidUtf8(home)
    requires rglob(RustMain.Pattern(home)).Paths? && SamePaths(rglob(RustMain.Pattern(home)).entries, paths)
    requires gglob(GoMain.Pattern(home, join)) == GoMain.Matches(paths)
    requires TextualMatches(paths)
    ensures RustMain.Discover(RustMain.EnvVar(Some(home)), rglob) == GoMain.Discover(home, join, gglob)
  {
    NamesAreBases(rglob(RustMain.Pattern(home)).entries, paths);
  }

  /** One glob path `dir/name` with a suffixed name: Rust collects the
      name when it is UTF-8 text, Go collects it always. */
  lemma SinglePath(dir: Bytes, name: Bytes)
    requires SLASH !in name && EndsWith(name, RustMain.SUFFIX)
    ensures RustMain.Names([RustMain.Found(dir + [SLASH] + name)]) == (if ValidUtf8(name) then [name] else [])
    ensures GoMain.Bases([dir + [SLASH] + name]) == [name]
  {
    var path := dir + [SLASH] + name;
    LastSegmentOfJoined(dir, name);
    assert |name| >= 11;
    RustMain.FileNameIsLastSegment(path);
    GoMain.BaseIsLastSegment(path);
    assert [RustMain.Found(path)][..0] == [];
    assert [path][..0] == [];
  }

  lemma SortSingle(x: Bytes)
    ensures Sort([x]) == [x]
  {
    assert [x][1..] == [];
  }

  /** A match whose name is not UTF-8 text is listed by Go and dropped by
      Rust. */
  lemma NonTextNameOnlyInGo(home: Bytes, join: seq<Bytes> -> Bytes, dir: Bytes, name: Bytes,
                              rglob: Bytes -> RustMain.GlobResult, gglob: Bytes -> GoMain.GlobResult)
    requires home != [] && ValidUtf8(home)
    requires SLASH !in name && EndsWith(name, RustMain.SUFFIX) && !ValidUtf8(name)
    requires rglob(RustMain.Pattern(home)) == RustMain.Paths([RustMain.Found(dir + [SLASH] + name)])
    requires gglob(GoMain.Pattern(home, join)) == GoMain.Matches([dir + [SLASH] + name])
    ensures RustMain.Discover(RustMain.EnvVar(Some(home)), rglob) == []
    ensures GoMain.Discover(home, join, gglob) == [name]
  {
    SinglePath(dir, name);
    SortSingle(name);
  }

  /** Such names exist: a leading 0xFF byte is never UTF-8. */
  lemma NonTextNameExists()
    ensures !ValidUtf8([0xFF] + RustMain.SUFFIX)
  {
    assert Utf8Width([0xFF] + RustMain.SUFFIX) == 0;
  }

  /** A `HOME` that is not UTF-8 text is unset to Rust, which discovers
      nothing, while Go globs under it and lists the match. */
  lemma NonTextHomeDiffers(home: Bytes, join: seq<Bytes> -> Bytes, dir: Bytes, name: Bytes,
                           rglob: Bytes -> RustMain.GlobResult, gglob: Bytes -> GoMain.GlobResult)
    requires home != [] && !ValidUtf8(home)
    requires SLASH !in name && EndsWith(name, RustMain.SUFFIX)
    requires gglob(GoMain.Pattern(home, join)) == GoMain.Matches([dir + [SLASH] + name])
    ensures RustMain.EnvVar(Some(home)) == None
    ensures RustMain.Discover(RustMain.EnvVar(Some(home)), rglob) == []
    ensures GoMain.Discover(home, join, gglob) == [name]
  {
    SinglePath(dir, name);
    SortSingle(name);
  }

  /** Such values exist: a `HOME` holding a 0xFF byte. */
  lemma NonTextHomeExists()
    ensures !ValidUtf8(Str("/home/") + [0xFF])
  {
    AsciiPrefixKeepsValidity(Str("/home/"), [0xFF]);
    assert Utf8Width([0xFF]) == 0;
  }

  /** An empty `HOME` means no discovery to Go, while Rust globs the
      `.kube` directory at the file system root. */
  lemma EmptyHomeDiffers(join: seq<Bytes> -> Bytes, dir: Bytes, name: Bytes,
                         rglob: Bytes -> RustMain.GlobResult, gglob: Bytes -> GoMain.GlobResult)
    requires SLASH !in name && EndsWith(name, RustMain.SUFFIX) && ValidUtf8(name)
    requires rglob(RustMain.Pattern([])) == RustMain.Paths([RustMain.Found(dir + [SLASH] + name)])
    ensures RustMain.Pattern([]) == Str("/.kube/*.kubeconfig")
    ensures RustMain.EnvVar(Some([])) == Some([])
    ensures RustMain.Discover(Some([]), rglob) == [name]
    ensures GoMain.Discover([], join, gglob) == []
  {
    assert RustMain.Pattern([]) == [] + Str("/.kube/*.kubeconfig");
    SinglePath(dir, name);
    SortSingle(name);
  }

  /** `--init ""`: Rust reports the unsupported shell `''` with status 1,
      Go ignores the flag and, with nothing else given, shows the help. */
  lemma EmptyInitDiffers(version: Bytes, home: Bytes, join: seq<Bytes> -> Bytes,
                         rglob: Bytes -> RustMain.GlobResult, gglob: Bytes -> GoMain.GlobResult,
                         scripts: GoMain.Scripts)
    ensures RustMain.Run(RustMain.Cli(None, false, false, false, Some([])), version, Some(home), rglob)
              == Outcome([], ShellInit.UnsupportedShell([]), 1)
    ensures GoMain.Run(GoMain.Flags(false, false, false, [], []), home, join, gglob, scripts)
              == Outcome(GoMain.ShowHelp(GoMain.Discover(home, join, gglob)), [], 0)
  {
    ShellInit.CaseSensitiveNames();
  }
}
