# kcontext, modelled in Dafny

kcontext switches the active kubeconfig of an interactive shell. Configurations live as
`$HOME/.kube/*.kubeconfig`. The binary finds them ("discovery"), lists them, and prints an
`export KUBECONFIG='…'` command for a chosen name. A process cannot change its parent's
environment, so a shell function installed by `kcontext --init <shell>` (the "wrapper") runs
the binary with `--shell` and evaluates what it prints.

The repository has two implementations of the binary:

- the Rust one (`src/main.rs`, with the embedded scripts of `src/shell_init.rs`);
- the Go one (`main.go`).

All text is modelled as bytes (`ByteText.Bytes`), since both languages compare and sort strings
byte by byte. An invocation is a function from the parsed command line, the environment values
and the library results to an `Outcome`: standard output, standard error and exit status.

Modules:

- **ByteText**: the byte order `Le` with its order laws, and `Join`/`Split` with their round
  trip. Also `LastSegment` (the part after the last `/`), and UTF-8 well-formedness as the
  grammar in section 4 of RFC 3629 defines it (Rust's `OsStr::to_str`).
- **Sorting**: `Sort` is a reference insertion sort with its correctness lemmas. `SortInPlace`
  is an in-place array insertion sort proved against it, and since a sorted permutation is
  unique, any sort the sources use yields `Sort`.
- **Process**: `Outcome`, `Option`, and `Line` (what `println!`/`Println` append).
- **ShellInit**: the three Rust scripts verbatim, `print_shell_init`, and the wrapper function
  the scripts define.
- **RustMain**: `get_kubeconfigs` (as a function and as the loop the source runs), `Path::file_name`,
  the help and error texts, and `main`'s dispatch.
- **GoMain**: `getKubeconfigs`, `filepath.Base`, the membership loop, the texts, and `main`
  (as a function and as a method), with `printShellInit` over a parameter record of scripts.
- **Agreement**: how the parts fit together. The completion filter reads back the listing; the
  wrapper and the binary combine into a shell-level switch; and the Rust and Go binaries agree
  on texts and on discovery, except in named cases (empty `HOME`, non-UTF-8 `HOME`, `--init ""`,
  non-UTF-8 names).
- **Scenarios**: concrete runs of the Rust binary on a home directory with two configurations.

Library calls become parameters:

- `glob` is a function from the pattern to the glob result.
- Go's `filepath.Join` is a function from the segments to a path.
- Rust's `HOME` is the result of `env::var("HOME")`, an option that is `None` when `HOME` is
  unset or not UTF-8 text (`RustMain.EnvVar` on the raw value). Go's `HOME` is a string, empty
  when unset.
- Rust's `CARGO_PKG_VERSION` is a parameter. Go's `version` is the package variable `version`
  (main.go:12), set to `0.0.1` and never reassigned in main.go.

Behaviour of the code that is easy to misread:

- The Rust binary treats an empty `HOME` like any other value and globs `/.kube/*.kubeconfig`.
  Only Go treats an empty `HOME` as absent.
- The Rust binary treats a `HOME` that is not UTF-8 text as unset and discovers nothing; Go
  globs under it.
- Go keeps every basename, including ones that are not UTF-8.
- Go ignores `--init ""`; Rust rejects it as an unsupported shell.
- Go reads its scripts from `shell_init.go`, whose texts differ from the Rust ones.

## Model

| member | source | states |
|---|---|---|
| ByteText.LeTotal | src/main.rs:120 | the byte order sort uses is total (with LeReflexive, LeAntisymmetric, LeTransitive: a total order) |
| ByteText.LeTransitive | src/main.rs:120 | the byte order is transitive |
| ByteText.LeAntisymmetric | main.go:115 | two strings ordered both ways are equal |
| ByteText.SplitJoin | src/main.rs:53 | splitting a separator-joined list of separator-free names gives the names back |
| ByteText.SplitAppend | src/main.rs:53 | splitting at one separator splits the two sides independently |
| ByteText.LastSegmentOfJoined | main.go:111 | the part of `dir/name` after the last slash is `name` |
| ByteText.LastSegmentNonEmpty | main.go:111 | a path not ending in a slash has a non-empty last segment |
| ByteText.Utf8Width | src/main.rs:115 | the width of the first well-formed UTF-8 character is at most 4 and within the input |
| ByteText.AsciiIsValidUtf8 | src/main.rs:115 | ASCII names always convert with `to_str` |
| Sorting.SortCorrect | src/main.rs:120 | the reference sort is sorted and a permutation of its input |
| Sorting.SortedUnique | main.go:115 | two sorted permutations of the same names are equal, so any correct sort yields the reference sort |
| Sorting.SortMembers | main.go:115 | sorting neither adds nor drops a name |
| Sorting.SortInPlace | src/main.rs:120 | the in-place sort leaves the array sorted and a permutation of its old contents |
| Sorting.SortNames | main.go:115 | sorting a copy of the names gives exactly the reference sort |
| ShellInit.SupportedShellPrintsScript | src/shell_init.rs:88-92 | `bash`, `zsh`, `fish` each print exactly their own script, with status 0 |
| ShellInit.OtherNameRejected | src/shell_init.rs:93-96 | any other name prints nothing, writes the error naming it, status 1 |
| ShellInit.CaseSensitiveNames | src/shell_init.rs:89-93 | `Bash`, `ZSH` and the empty name are rejected |
| ShellInit.PrintShellInitSucceedsIff | src/shell_init.rs:88-98 | `--init` succeeds exactly for the three names |
| ShellInit.PrintShellInitInjective | src/shell_init.rs:88-98 | different names never give the same run |
| ShellInit.ScriptsDistinct | src/shell_init.rs:3-85 | the three embedded scripts differ |
| ShellInit.ScriptsEndWithNewline | src/shell_init.rs:3-85 | every script ends with its own newline |
| ShellInit.CompletionFilterInScripts | src/shell_init.rs:27 | every script filters the listing with `sed` deleting the listing prefix |
| ShellInit.WrapperEvaluatesOnlySuccess | src/shell_init.rs:6-20 | the wrapper forwards exactly the listed cases, otherwise evaluates the `--shell` run's stdout iff its status is 0, else returns that status |
| ShellInit.EmptyFirstArgument | src/shell_init.rs:67 | an empty first argument is forwarded by bash and zsh (`-z "$1"`), not by fish (`count $argv`) |
| ShellInit.ShortFlagsNotForwarded | src/shell_init.rs:37 | `-l` and `-v` are not forwarded |
| RustMain.EnvVar | src/main.rs:102-105 | `env::var("HOME")` gives a value exactly when `HOME` is set and UTF-8 text, and then the value itself |
| RustMain.GetKubeconfigs | src/main.rs:101-122 | the collecting loop and the in-place sort compute `Discover` |
| RustMain.FileNameIsLastSegment | src/main.rs:114 | `file_name` of a path is its last segment when that is a proper name |
| RustMain.NamesYielded | src/main.rs:109-118 | a name is collected iff some readable entry has it as file name and it is UTF-8 |
| RustMain.DiscoverSortedPermutation | src/main.rs:101-122 | discovery is sorted; empty without `HOME` or for a pattern error; otherwise a permutation of the collected names |
| RustMain.DiscoveredIff | src/main.rs:109-120 | a name is discovered iff the glob yields an entry that has it as UTF-8 file name |
| RustMain.DiscoveredNamesEndWithSuffix | src/main.rs:107 | if the glob honours the pattern, every discovered name ends with `.kubeconfig` |
| RustMain.VersionFirst | src/main.rs:37-40 | `--version` decides the run alone and prints the version line |
| RustMain.InitSecond | src/main.rs:42-45 | then `--init` decides the run without discovery; `--init ""` is an unsupported shell |
| RustMain.ListThird | src/main.rs:49-55 | then `--list` prints the listing, status 0, whatever the name and `--shell` |
| RustMain.HelpLast | src/main.rs:77-79 | with no name the help is shown, status 0 |
| RustMain.UnknownName | src/main.rs:58-64 | an unknown name: the error on stderr, the help on stdout, status 1, no export |
| RustMain.ExportDiscovered | src/main.rs:66-70 | a discovered name with `--shell` prints exactly `export KUBECONFIG='HOME/.kube/name'`, no newline |
| RustMain.WrapperNotLoaded | src/main.rs:71-76 | a discovered name without `--shell`: the setup instruction on stderr, status 1 |
| RustMain.HomeFallbackUnused | src/main.rs:68 | without `HOME` no name is known, so the `"."` fallback is never printed |
| RustMain.ExitStatus | src/main.rs:34-80 | the status is 0 or 1, and 0 exactly for version, a supported `--init`, list, help, or an export |
| RustMain.HelpEndsWithListing | src/main.rs:94-98 | the help ends with the listing `--list` prints |
| GoMain.Base | main.go:111 | `filepath.Base` is never empty and contains a slash only as `/` itself |
| GoMain.BaseIsLastSegment | main.go:111 | for a match whose last segment is non-empty, `Base` is that segment |
| GoMain.GetKubeconfigs | main.go:95-117 | the append loop and `sort.Strings` compute `Discover` |
| GoMain.DiscoverSortedPermutation | main.go:95-117 | discovery is sorted; empty for an empty `HOME` or a glob error; otherwise a permutation of the basenames |
| GoMain.DiscoveredIff | main.go:104-115 | a name is discovered iff it is the basename of some match |
| GoMain.DiscoveredNamesEndWithSuffix | main.go:102 | if the glob honours the pattern, every name ends with `.kubeconfig` |
| GoMain.Contains | main.go:49-56 | the search loop finds the name iff it is among the discovered names |
| GoMain.Execute | main.go:14-74 | running `main` step by step gives `Run` |
| GoMain.VersionFirst | main.go:21-24 | `-version` decides the run alone and prints `kcontext version 0.0.1` |
| GoMain.InitSecond | main.go:26-29 | then a non-empty `-init` decides the run; an empty one is ignored |
| GoMain.ListThird | main.go:33-40 | then `-list` prints the listing, status 0 |
| GoMain.HelpWithoutArguments | main.go:42-45 | with no positional argument the help is shown, status 0 |
| GoMain.FirstArgumentIsName | main.go:47 | only the first positional argument matters |
| GoMain.UnknownName | main.go:58-62 | an unknown name: error on stderr, help on stdout, status 1 |
| GoMain.ExportDiscovered | main.go:64-67 | a discovered name with `-shell` prints the export of the joined path, no newline |
| GoMain.WrapperNotLoaded | main.go:68-73 | without `-shell`: the setup instruction on stderr, status 1 |
| GoMain.PrintShellInitSelects | main.go:119-131 | each name selects its script; any other name is the error with status 1 |
| GoMain.ExitStatus | main.go:14-74 | the status is 0 or 1, and 0 exactly for the informational runs and an export |
| GoMain.HelpEndsWithListing | main.go:88-92 | the help ends with the listing `-list` prints |
| Agreement.CompletionRecoversRustListing | src/shell_init.rs:27-28 | for a non-empty list of space-free names, splitting the `sed`-filtered listing into words gives back exactly those names, in order |
| Agreement.CompletionRecoversGoListing | main.go:33-38 | the same holds for the Go listing, for a non-empty list of space-free names |
| Agreement.EmptyListingCandidates | src/shell_init.rs:27-28 | with nothing discovered, `sed` leaves the not-found line unchanged and the word split offers its six words `No`, `kubeconfig`, `files`, `found`, `in`, `~/.kube/*.kubeconfig` |
| Agreement.SpacedNameSplits | src/shell_init.rs:27-28 | a single name `a b` holding a space arrives as the two candidates `a` and `b` |
| Agreement.ZshOffersJoinedCandidate | src/shell_init.rs:57 | with two or more names, the zsh completion offers one candidate, all names joined by spaces |
| Agreement.WrapperExportsDiscoveredName | src/shell_init.rs:13-17 | wrapper plus binary: a discovered name makes the shell evaluate the export of `HOME/.kube/name` |
| Agreement.WrapperRejectsUnknownName | src/shell_init.rs:16-19 | wrapper plus binary: an unknown name evaluates nothing and returns 1 |
| Agreement.WrapperEvaluatesShortListFlag | src/shell_init.rs:6-17 | `kcontext -l` through the wrapper evaluates the listing line as a command |
| Agreement.CorrectedWrapperShowsShortListing | src/main.rs:18-23 | a wrapper that also forwards `-l` and `-v` shows the listing for `kcontext -l` and evaluates nothing |
| Agreement.CorrectedWrapperAgrees | src/shell_init.rs:6-9 | for every first argument other than `-l` and `-v` the corrected wrapper is the wrapper as written |
| Agreement.ListingsAgree | main.go:33-38 | Rust and Go print the same listing |
| Agreement.UsagesAgree | main.go:76-87 | Rust and Go print the same usage block |
| Agreement.TextsAgree | main.go:58-71 | Rust and Go print the same help, not-found, unsupported-shell and wrapper-missing texts |
| Agreement.DiscoveriesAgree | main.go:95-117 | with a non-empty `HOME` that is UTF-8 text and the same UTF-8 matches, both discover the same names |
| Agreement.NonTextNameOnlyInGo | src/main.rs:115 | a non-UTF-8 name is listed by Go and dropped by Rust |
| Agreement.NonTextNameExists | src/main.rs:115 | such names exist (a leading `0xFF` byte) |
| Agreement.NonTextHomeDiffers | src/main.rs:102-105 | a `HOME` that is not UTF-8 text: `env::var` fails and Rust discovers nothing, while Go lists the match |
| Agreement.NonTextHomeExists | src/main.rs:102-105 | such values exist (`/home/` followed by a `0xFF` byte) |
| Agreement.EmptyHomeDiffers | src/main.rs:102-107 | an empty `HOME`: Rust globs the root's `.kube`, Go discovers nothing |
| Agreement.EmptyInitDiffers | src/main.rs:42-45 | `--init ""`: Rust fails as an unsupported shell, Go shows the help with status 0 |
| Scenarios.DiscoversBoth | src/main.rs:101-122 | matches `b.kubeconfig` then `a.kubeconfig` are discovered as `[a.kubeconfig, b.kubeconfig]` |
| Scenarios.ListNothing | src/main.rs:49-51 | no matches: `--list` prints the not-found line, status 0 |
| Scenarios.ListBoth | src/main.rs:49-54 | `--list` prints `Available kubeconfigs: a.kubeconfig b.kubeconfig` and a newline |
| Scenarios.EmitExport | src/main.rs:66-70 | `--shell a.kubeconfig` prints `export KUBECONFIG='/tmp/h/.kube/a.kubeconfig'` |
| Scenarios.UnknownNameRejected | src/main.rs:58-64 | `c.kubeconfig --shell` writes the not-found error first, status 1 |
| Scenarios.WrapperMissing | src/main.rs:71-76 | `a.kubeconfig` without `--shell` writes the setup instruction, status 1 |
| Scenarios.UnsupportedShell | src/shell_init.rs:93-96 | `--init ksh` writes the unsupported-shell error naming `ksh`, status 1 |

## Findings

| source | as written | input that shows it | evidently intended | confidence | as-written member | corrected member |
|---|---|---|---|---|---|---|
| src/shell_init.rs:57 | `${(f)"$(…)"}` splits the filtered listing at newlines, but the listing is one line with the names separated by spaces | two files `a.kubeconfig`, `b.kubeconfig`: zsh offers the single candidate `a.kubeconfig b.kubeconfig` | one candidate per name, as the bash completion gives via `compgen -W` | medium, not executed | Agreement.ZshOffersJoinedCandidate | Agreement.CompletionRecoversRustListing |
| src/shell_init.rs:6 | the wrapper forwards only `--list`, `--version` and `--help`, although the binary also accepts `-l` and `-v` (src/main.rs:18, 22) | `kcontext -l` runs `kcontext --shell -l`, which lists with status 0, so the shell evaluates `Available kubeconfigs: …` as a command | `-l` and `-v` forwarded like their long forms | medium, not executed | Agreement.WrapperEvaluatesShortListFlag | Agreement.CorrectedWrapperShowsShortListing |

The Go zsh script has the same `${(f)…}` line (shell_init.go:58). The Rust fish completion
(src/shell_init.rs:84) lacks the `string split ' '` stage that the Go one adds
(shell_init.go:89), so fish likely offers the joined line too; fish's tokenisation is not modelled.

## Left out

- Command-line parsing (clap and Go's `flag`) is not modelled; the parsed result is an input.
  So clap's generated `--help`/`-h` output and its usage errors are not modelled. Neither is
  the way Go's `flag` stops at the first positional argument, so a later `-shell` is a
  positional argument there.
- Glob and file-system semantics are not modelled: which paths match, hidden files, directory
  order and unreadable entries are the glob parameter's choice. `MatchesPattern` states only
  the suffix promise.
- Go's `filepath.Join` is a parameter: the model does not clean paths. So Go's export path is
  stated in terms of `join`, not as a concatenation.
- Reading `HOME`, writing to the streams, and the interleaving of stdout and stderr are not
  modelled: an `Outcome` keeps the two streams apart.
- The shell runtime is not modelled: `eval`, the trimming in command substitution, `compgen`,
  `_describe`, fish's `complete` tokenisation, and zsh `compdef`. The completion lemmas model
  only `sed` and the split. The split keeps empty fields, which the shell's word splitting
  drops, so the round trip is stated for non-empty name lists.
- The bash completion with nothing discovered offers the six words of the not-found line, as
  `Agreement.EmptyListingCandidates` states for the code as written. No corrected filter is
  modelled: the source gives no sign of which text the completion should see then.
- Go's script texts: `shell_init.go` is not part of this model; its texts are a parameter.
- The single-quote injection through `HOME` in the export command is not modelled as a finding:
  the printed text is stated exactly, and escaping is absent in the source.
- `homebrew/kcontext.rb` and the test files are not part of this model.
