/** Concrete runs of the Rust binary: a home directory `/tmp/h` whose
    `.kube` directory holds `b.kubeconfig` and `a.kubeconfig` (and files
    the pattern does not match, which the glob does not yield). */
module Scenarios {
  import opened ByteText
  import opened Sorting
  import opened Process
  import ShellInit
  import RustMain

  const HOME := Str("/tmp/h")
  const KUBE := Str("/tmp/h/.kube")
  const A := Str("a.kubeconfig")
  const B := Str("b.kubeconfig")

  /** The glob for that directory: the two matches in directory order. */
  function Glob(p: Bytes): RustMain.GlobResult {
    if p == RustMain.Pattern(HOME) then
      RustMain.Paths([RustMain.Found(KUBE + [SLASH] + B), RustMain.Found(KUBE + [SLASH] + A)])
    else RustMain.Paths([])
  }

  /** The glob for a home without a `.kube` directory. */
  function NoMatches(p: Bytes): RustMain.GlobResult {
    RustMain.Paths([])
  }

  /** One match `KUBE/name` contributes `name`. */
  lemma EntryNameOf(name: Bytes)
    requires SLASH !in name && |name| >= 3 && forall i :: 0 <= i < |name| ==> name[i] <= 0x7F
    ensures RustMain.EntryName(RustMain.Found(KUBE + [SLASH] + name)) == [name]
  {
    LastSegmentOfJoined(KUBE, name);
    RustMain.FileNameIsLastSegment(KUBE + [SLASH] + name);
    AsciiIsValidUtf8(name);
  }

  /** The two names are ASCII, slash-free, and `a.kubeconfig` sorts first. */
  lemma NamesShape()
    ensures SLASH !in A && |A| >= 3 && forall i :: 0 <= i < |A| ==> A[i] <= 0x7F
    ensures SLASH !in B && |B| >= 3 && forall i :: 0 <= i < |B| ==> B[i] <= 0x7F
    ensures Le(A, B) && !Le(B, A) && A != B
  {
    assert A[0] == 97 && B[0] == 98;
  }

  lemma NamesOfTwo(e1: RustMain.GlobEntry, e2: RustMain.GlobEntry)
    ensures RustMain.Names([e1, e2]) == RustMain.EntryName(e1) + RustMain.EntryName(e2)
  {
    assert [e1, e2][..1] == [e1] && [e1][..0] == [] && [e1, e2][1] == e2;
    assert RustMain.Names([e1]) == RustMain.Names([]) + RustMain.EntryName(e1);
  }

  lemma SortTwo(x: Bytes, y: Bytes)
    requires !Le(x, y)
    ensures Sort([x, y]) == [y, x]
  {
    assert [x, y][1..] == [y] && [y][1..] == [];
    assert Sort([y]) == [y];
    assert Insert(x, [y]) == [y] + Insert(x, []);
  }

  /** Discovery finds both names, sorted. */
  lemma DiscoversBoth()
    ensures RustMain.Discover(Some(HOME), Glob) == [A, B]
  {
    var ea, eb := RustMain.Found(KUBE + [SLASH] + A), RustMain.Found(KUBE + [SLASH] + B);
    assert Glob(RustMain.Pattern(HOME)) == RustMain.Paths([eb, ea]);
    NamesShape();
    EntryNameOf(A);
    EntryNameOf(B);
    NamesOfTwo(eb, ea);
    SortTwo(B, A);
  }

  /** No `.kube` directory: `--list` reports that nothing was found. */
  lemma ListNothing(version: Bytes)
    ensures RustMain.Run(RustMain.Cli(None, false, true, false, None), version, Some(Str("/tmp/empty")), NoMatches)
              == Outcome(Str("No kubeconfig files found in ~/.kube/*.kubeconfig\n"), [], 0)
  {
    RustMain.ListThird(RustMain.Cli(None, false, true, false, None), version, Some(Str("/tmp/empty")), NoMatches);
    assert RustMain.Discover(Some(Str("/tmp/empty")), NoMatches) == [];
    assert "No kubeconfig files found in ~/.kube/*.kubeconfig" + "\n"
        == "No kubeconfig files found in ~/.kube/*.kubeconfig\n";
    StrAppend("No kubeconfig files found in ~/.kube/*.kubeconfig", "\n");
  }

  /** `--list` prints both names in order on one line. */
  lemma ListBoth(version: Bytes)
    ensures RustMain.Run(RustMain.Cli(None, false, true, false, None), version, Some(HOME), Glob)
              == Outcome(Str("Available kubeconfigs: a.kubeconfig b.kubeconfig\n"), [], 0)
  {
    RustMain.ListThird(RustMain.Cli(None, false, true, false, None), version, Some(HOME), Glob);
    DiscoversBoth();
    assert [A, B][1..] == [B];
    assert Join([A, B], Str(" ")) == A + Str(" ") + B;
    ListingText();
  }

  lemma ListingText()
    ensures Line(Str("Available kubeconfigs: ") + (A + Str(" ") + B))
            == Str("Available kubeconfigs: a.kubeconfig b.kubeconfig\n")
  {
    var text := "Available kubeconfigs: " + "a.kubeconfig" + " " + "b.kubeconfig";
    assert text + "\n" == "Available kubeconfigs: a.kubeconfig b.kubeconfig\n";
    StrAppend("Available kubeconfigs: ", "a.kubeconfig");
    StrAppend("Available kubeconfigs: " + "a.kubeconfig", " ");
    StrAppend("Available kubeconfigs: " + "a.kubeconfig" + " ", "b.kubeconfig");
    StrAppend(text, "\n");
  }

  /** `--shell a.kubeconfig` prints the export command, with no newline. */
  lemma EmitExport(version: Bytes)
    ensures RustMain.Run(RustMain.Cli(Some(A), false, false, true, None), version, Some(HOME), Glob)
              == Outcome(Str("export KUBECONFIG='/tmp/h/.kube/a.kubeconfig'"), [], 0)
  {
    DiscoversBoth();
    RustMain.ExportDiscovered(RustMain.Cli(Some(A), false, false, true, None), version, Some(HOME), Glob);
    ExportText();
  }

  lemma ExportText()
    ensures Str("export KUBECONFIG='") + HOME + Str("/.kube/") + A + Str("'")
            == Str("export KUBECONFIG='/tmp/h/.kube/a.kubeconfig'")
  {
    var text := "export KUBECONFIG='" + "/tmp/h" + "/.kube/" + "a.kubeconfig";
    assert text + "'" == "export KUBECONFIG='/tmp/h/.kube/a.kubeconfig'";
    StrAppend("export KUBECONFIG='", "/tmp/h");
    StrAppend("export KUBECONFIG='" + "/tmp/h", "/.kube/");
    StrAppend("export KUBECONFIG='" + "/tmp/h" + "/.kube/", "a.kubeconfig");
    StrAppend(text, "'");
  }

  /** `c.kubeconfig --shell` is rejected with status 1, the error first on
      standard error. */
  lemma UnknownNameRejected(version: Bytes)
    ensures StartsWith(
              RustMain.Run(RustMain.Cli(Some(Str("c.kubeconfig")), false, false, true, None), version, Some(HOME), Glob).stderr,
              Str("Error: kubeconfig 'c.kubeconfig' not found"))
    ensures RustMain.Run(RustMain.Cli(Some(Str("c.kubeconfig")), false, false, true, None), version, Some(HOME), Glob).code == 1
  {
    DiscoversBoth();
    var c := Str("c.kubeconfig");
    assert c[0] != A[0] && c[0] != B[0];
    assert c !in [A, B];
    RustMain.UnknownName(RustMain.Cli(Some(c), false, false, true, None), version, Some(HOME), Glob);
    NotFoundText();
  }

  lemma NotFoundText()
    ensures StartsWith(Str("Error: kubeconfig '") + Str("c.kubeconfig") + Str("' not found") + [NEWLINE],
                       Str("Error: kubeconfig 'c.kubeconfig' not found"))
  {
    var text := "Error: kubeconfig '" + "c.kubeconfig" + "' not found";
    assert text == "Error: kubeconfig 'c.kubeconfig' not found";
    StrAppend("Error: kubeconfig '", "c.kubeconfig");
    StrAppend("Error: kubeconfig '" + "c.kubeconfig", "' not found");
  }

  /** `a.kubeconfig` without `--shell` tells the user to load the wrapper. */
  lemma WrapperMissing(version: Bytes)
    ensures RustMain.Run(RustMain.Cli(Some(A), false, false, false, None), version, Some(HOME), Glob)
              == Outcome([], RustMain.WRAPPER_MISSING, 1)
  {
    DiscoversBoth();
    RustMain.WrapperNotLoaded(RustMain.Cli(Some(A), false, false, false, None), version, Some(HOME), Glob);
  }

  /** `--init ksh` names the unsupported shell, with status 1. */
  lemma UnsupportedShell(version: Bytes)
    ensures RustMain.Run(RustMain.Cli(None, false, false, false, Some(Str("ksh"))), version, Some(HOME), Glob)
              == Outcome([], Str("Error: unsupported shell 'ksh'. Supported: bash, zsh, fish\n"), 1)
  {
    RustMain.InitSecond(RustMain.Cli(None, false, false, false, Some(Str("ksh"))), version, Some(HOME), Glob);
    assert Str("ksh")[0] != Str("zsh")[0];
    ShellInit.OtherNameRejected(Str("ksh"));
    UnsupportedText();
  }

  lemma UnsupportedText()
    ensures ShellInit.UnsupportedShell(Str("ksh")) == Str("Error: unsupported shell 'ksh'. Supported: bash, zsh, fish\n")
  {
    var p1, p2 := "Error: unsupported shell '", "'. Supported: bash, zsh, fish";
    assert ShellInit.UnsupportedShell(Str("ksh")) == Str(p1) + Str("ksh") + Str(p2) + Str("\n");
    assert p1 + "ksh" + p2 + "\n" == "Error: unsupported shell 'ksh'. Supported: bash, zsh, fish\n";
    StrAppend(p1, "ksh");
    StrAppend(p1 + "ksh", p2);
    StrAppend(p1 + "ksh" + p2, "\n");
  }
}
