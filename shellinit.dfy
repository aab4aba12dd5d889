/** The shell integration scripts of src/shell_init.rs, `print_shell_init`
    which chooses among them by name, and the decision rule of the
    `kcontext` wrapper function each script defines. */
module ShellInit {
  import opened ByteText
  import opened Process

  /** The text every script's completion deletes from `kcontext --list`
      output before offering the rest as candidates. */
  const COMPLETION_PREFIX := Str("Available kubeconfigs: ")

  /** The `sed` substitution all three completions pipe the listing through. */
  const COMPLETION_FILTER := Str("sed 's/") + COMPLETION_PREFIX + Str("//'")

  // The scripts' text, verbatim, in the parts before and after the filter.

  const BASH_HEAD := Str(@"# kcontext shell integration for bash
function kcontext {
    # Pass flags directly to the binary
    if [ ""$1"" = ""--list"" ] || [ ""$1"" = ""--version"" ] || [ ""$1"" = ""--help"" ] || [ -z ""$1"" ]; then
        command kcontext ""$@""
        return $?
    fi
    
    # Get the export command from the binary and evaluate it
    local cmd
    cmd=$(command kcontext --shell ""$@"")
    local exit_code=$?
    
    if [ $exit_code -eq 0 ]; then
        eval ""$cmd""
    else
        return $exit_code
    fi
}

# Bash completion
function _kcontext_completion {
    local cur=""${COMP_WORDS[COMP_CWORD]}""
    local configs
    configs=$(command kcontext --list 2>/dev/null | ")

  const BASH_TAIL_TEXT: string := @")
    mapfile -t COMPREPLY < <(compgen -W ""${configs}"" -- ""${cur}"")
}

complete -F _kcontext_completion kcontext
"
  const BASH_TAIL := Str(BASH_TAIL_TEXT)

  const ZSH_HEAD := Str(@"# kcontext shell integration for zsh
function kcontext {
    # Pass flags directly to the binary
    if [ ""$1"" = ""--list"" ] || [ ""$1"" = ""--version"" ] || [ ""$1"" = ""--help"" ] || [ -z ""$1"" ]; then
        command kcontext ""$@""
        return $?
    fi
    
    # Get the export command from the binary and evaluate it
    local cmd
    cmd=$(command kcontext --shell ""$@"")
    local exit_code=$?
    
    if [ $exit_code -eq 0 ]; then
        eval ""$cmd""
    else
        return $exit_code
    fi
}

# Zsh completion
function _kcontext_completion {
    local -a configs
    configs=(${(f)""$(command kcontext --list 2>/dev/null | ")

  const ZSH_TAIL_TEXT: string := @")""})
    _describe 'kubeconfig' configs
}

compdef _kcontext_completion kcontext
"
  const ZSH_TAIL := Str(ZSH_TAIL_TEXT)

  const FISH_HEAD := Str(@"# kcontext shell integration for fish
function kcontext
    # Pass flags directly to the binary
    if test ""$argv[1]"" = ""--list""; or test ""$argv[1]"" = ""--version""; or test ""$argv[1]"" = ""--help""; or test (count $argv) -eq 0
        command kcontext $argv
        return $status
    end
    
    # Get the export command from the binary and evaluate it
    set -l cmd (command kcontext --shell $argv)
    set -l exit_code $status
    
    if test $exit_code -eq 0
        eval $cmd
    else
        return $exit_code
    end
end

# Fish completion
complete -c kcontext -f -a ""(command kcontext --list 2>/dev/null | ")

  const FISH_TAIL_TEXT: string := @")""
"
  const FISH_TAIL := Str(FISH_TAIL_TEXT)

  const BASH_INIT := BASH_HEAD + COMPLETION_FILTER + BASH_TAIL
  const ZSH_INIT := ZSH_HEAD + COMPLETION_FILTER + ZSH_TAIL
  const FISH_INIT := FISH_HEAD + COMPLETION_FILTER + FISH_TAIL

  datatype Shell = Bash | Zsh | Fish {
    /** The name `--init` accepts for this shell. */
    function Name(): Bytes {
      match this
      case Bash => Str("bash")
      case Zsh => Str("zsh")
      case Fish => Str("fish")
    }

    /** The script's text, verbatim: the part before the completion
        filter, the filter, and the part after it. */
    function Script(): Bytes {
      Head() + COMPLETION_FILTER + Tail()
    }

    function Head(): Bytes {
      match this
      case Bash => BASH_HEAD
      case Zsh => ZSH_HEAD
      case Fish => FISH_HEAD
    }

    function Tail(): Bytes {
      match this
      case Bash => BASH_TAIL
      case Zsh => ZSH_TAIL
      case Fish => FISH_TAIL
    }
  }

  function UnsupportedShell(shell: Bytes): Bytes {
    Line(Str("Error: unsupported shell '") + shell + Str("'. Supported: bash, zsh, fish"))
  }

  /** `kcontext --init <shell>`: the script for an exactly matching name,
      printed without an added newline; otherwise an error and status 1. */
  function PrintShellInit(shell: Bytes): Outcome {
    if shell == Str("bash") then Printed(BASH_INIT)
    else if shell == Str("zsh") then Printed(ZSH_INIT)
    else if shell == Str("fish") then Printed(FISH_INIT)
    else Outcome([], UnsupportedShell(shell), 1)
  }

  lemma NamesDistinct()
    ensures Bash.Name() != Zsh.Name() && Bash.Name() != Fish.Name() && Zsh.Name() != Fish.Name()
  {
    assert Bash.Name()[0] != Fish.Name()[0];
  }

  /** Each supported name prints exactly its own script and nothing else. */
  lemma SupportedShellPrintsScript(sh: Shell)
    ensures PrintShellInit(sh.Name()) == Outcome(sh.Script(), [], 0)
  {
    NamesDistinct();
  }

  /** Every other name, whatever its case, prints only the error naming it. */
  lemma OtherNameRejected(shell: Bytes)
    requires forall sh: Shell :: shell != sh.Name()
    ensures PrintShellInit(shell).stdout == []
    ensures PrintShellInit(shell).code == 1
    ensures PrintShellInit(shell).stderr == UnsupportedShell(shell)
  {
    assert shell != Bash.Name() && shell != Zsh.Name() && shell != Fish.Name();
  }

  /** Upper case and the empty name are not accepted. */
  lemma CaseSensitiveNames()
    ensures PrintShellInit(Str("Bash")).code == 1
    ensures PrintShellInit(Str("ZSH")).code == 1
    ensures PrintShellInit([]).code == 1
  {
    assert Str("Bash")[0] != Str("bash")[0];
    assert Str("ZSH")[0] != Str("zsh")[0];
  }

  /** Success exactly for the three names. */
  lemma PrintShellInitSucceedsIff(shell: Bytes)
    ensures PrintShellInit(shell).code == 0 <==> exists sh: Shell :: shell == sh.Name()
  {
    if shell == Str("bash") { assert shell == Bash.Name(); }
    if shell == Str("zsh") { assert shell == Zsh.Name(); }
    if shell == Str("fish") { assert shell == Fish.Name(); }
  }

  /** The three scripts differ (they differ in length). */
  lemma ScriptsDistinct()
    ensures BASH_INIT != ZSH_INIT && BASH_INIT != FISH_INIT && ZSH_INIT != FISH_INIT
  {
    assert |BASH_INIT| == 806 && |ZSH_INIT| == 740 && |FISH_INIT| == 650;
  }

  /** The text between a fixed prefix and a fixed suffix is determined. */
  lemma SameFrame(pre: Bytes, a: Bytes, b: Bytes, post: Bytes)
    requires pre + a + post == pre + b + post
    ensures a == b
  {
    assert |a| == |b|;
    assert a == (pre + a + post)[|pre|..|pre| + |a|];
    assert b == (pre + b + post)[|pre|..|pre| + |b|];
  }

  /** The error message repeats the rejected name, so it determines it. */
  lemma UnsupportedShellInjective(a: Bytes, b: Bytes)
    requires UnsupportedShell(a) == UnsupportedShell(b)
    ensures a == b
  {
    var pre, post := Str("Error: unsupported shell '"), Str("'. Supported: bash, zsh, fish") + [NEWLINE];
    assert UnsupportedShell(a) == pre + a + post;
    assert UnsupportedShell(b) == pre + b + post;
    SameFrame(pre, a, b, post);
  }

  /** Different names never produce the same run: the scripts differ, and
      the error repeats the rejected name. */
  lemma PrintShellInitInjective(a: Bytes, b: Bytes)
    requires PrintShellInit(a) == PrintShellInit(b)
    ensures a == b
  {
    if PrintShellInit(a).code == 1 {
      UnsupportedShellInjective(a, b);
    } else {
      ScriptsDistinct();
    }
  }

  lemma LastOfScript(head: Bytes, tail: Bytes)
    requires tail != []
    ensures (head + COMPLETION_FILTER + tail)[|head + COMPLETION_FILTER + tail| - 1] == tail[|tail| - 1]
  {
  }

  /** A literal ending in a line break gives bytes ending in a newline. */
  lemma StrEndsWithNewline(s: string)
    requires s != [] && s[|s| - 1] == '\n'
    ensures Str(s)[|Str(s)| - 1] == NEWLINE
  {
  }

  lemma TailEndsWithNewline(sh: Shell)
    ensures sh.Tail() != [] && sh.Tail()[|sh.Tail()| - 1] == NEWLINE
  {
    match sh
    case Bash => StrEndsWithNewline(BASH_TAIL_TEXT);
    case Zsh => StrEndsWithNewline(ZSH_TAIL_TEXT);
    case Fish => StrEndsWithNewline(FISH_TAIL_TEXT);
  }

  /** Each script ends with a newline of its own. */
  lemma ScriptsEndWithNewline(sh: Shell)
    ensures sh.Script() != [] && sh.Script()[|sh.Script()| - 1] == NEWLINE
  {
    LastOfScript(sh.Head(), sh.Tail());
    match sh
    case Bash => TailEndsWithNewline(Bash);
    case Zsh => TailEndsWithNewline(Zsh);
    case Fish => TailEndsWithNewline(Fish);
  }

  /** `sub` occurs in `text` starting at index `k`. */
  predicate OccursAt(text: Bytes, sub: Bytes, k: int) {
    0 <= k <= |text| - |sub| && text[k..k + |sub|] == sub
  }

  lemma FilterBetween(head: Bytes, tail: Bytes)
    ensures OccursAt(head + COMPLETION_FILTER + tail, COMPLETION_FILTER, |head|)
  {
    assert (head + COMPLETION_FILTER + tail)[|head|..|head| + |COMPLETION_FILTER|] == COMPLETION_FILTER;
  }

  /** Every script's completion filters the listing through `sed 's/P//'`
      with P the listing prefix. */
  lemma CompletionFilterInScripts(sh: Shell)
    ensures exists k :: OccursAt(sh.Script(), COMPLETION_FILTER, k)
  {
    FilterBetween(sh.Head(), sh.Tail());
    assert OccursAt(sh.Script(), COMPLETION_FILTER, |sh.Head()|);
  }

  // ---------------------------------------------------------------------------
  // The wrapper function `kcontext` the scripts define

  /** The wrapper hands the call to the binary unchanged when the first
      argument is `--list`, `--version` or `--help`, or when there is none.
      Bash and zsh test emptiness with `[ -z "$1" ]`, which an empty first
      argument also passes; fish counts the arguments. */
  predicate Forwards(sh: Shell, args: seq<Bytes>) {
    |args| == 0
    || args[0] == Str("--list") || args[0] == Str("--version") || args[0] == Str("--help")
    || (sh != Fish && args[0] == [])
  }

  /** What one call of the wrapper does to the calling shell. */
  datatype WrapperResult =
    | Forwarded(out: Outcome)   // the binary's run, shown and returned as is
    | Evaluated(command: Bytes) // captured output evaluated in the shell
    | Failed(status: int)       // nonzero status returned, nothing evaluated

  /** One call of the wrapper with `args`, where `binary` gives the run of
      the real binary for an argument list. */
  function Wrapper(sh: Shell, args: seq<Bytes>, binary: seq<Bytes> -> Outcome): WrapperResult {
    if Forwards(sh, args) then Forwarded(binary(args))
    else
      var out := binary([Str("--shell")] + args);
      if out.code == 0 then Evaluated(out.stdout) else Failed(out.code)
  }

  /** The wrapper evaluates text only when it ran the binary with `--shell`
      prepended and that run succeeded, and then it evaluates exactly that
      run's standard output; a failing run's status comes back unchanged. */
  lemma WrapperEvaluatesOnlySuccess(sh: Shell, args: seq<Bytes>, binary: seq<Bytes> -> Outcome)
    ensures Wrapper(sh, args, binary).Forwarded? <==> Forwards(sh, args)
    ensures Forwards(sh, args) ==> Wrapper(sh, args, binary).out == binary(args)
    ensures Wrapper(sh, args, binary).Evaluated? <==>
              !Forwards(sh, args) && binary([Str("--shell")] + args).code == 0
    ensures Wrapper(sh, args, binary).Evaluated? ==>
              Wrapper(sh, args, binary).command == binary([Str("--shell")] + args).stdout
    ensures Wrapper(sh, args, binary).Failed? ==>
              Wrapper(sh, args, binary).status == binary([Str("--shell")] + args).code != 0
  {
  }

  /** `kcontext ""` is forwarded by the bash and zsh wrappers but run with
      `--shell` by the fish wrapper. */
  lemma EmptyFirstArgument()
    ensures Forwards(Bash, [[]]) && Forwards(Zsh, [[]])
    ensures !Forwards(Fish, [[]])
  {
  }

  /** The short spellings `-l` and `-v` are not among the forwarded flags. */
  lemma ShortFlagsNotForwarded(sh: Shell)
    ensures !Forwards(sh, [Str("-l")]) && !Forwards(sh, [Str("-v")])
  {
    assert Str("-l")[1] != Str("--list")[1];
    assert Str("-v")[1] != Str("--version")[1];
    assert Str("-l")[1] != Str("--help")[1];
    assert Str("-v")[1] != Str("--help")[1];
  }
}
