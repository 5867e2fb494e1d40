/** What the generators of `shells/bash.go` promise about the scripts they
    write, stated over the line sequences the writers are proved to render:
    the order of the sync steps, the checkout of the full commit, the shape
    of the command and artifact phases, the balance of the generated
    `if`/`fi` blocks, where the build token goes, and the layout of the
    whole script. */
module BashProperties {
  import opened Common
  import opened GoStrings
  import opened Emitter
  import opened Bash

  // ---------------------------------------------------------------- exports

  /** One `export` line per variable, in the order of the variable list. */
  lemma {:induction false} ExportsOnePerVariable(variables: seq<string>)
    ensures |ExportLinesOf(variables)| == |variables|
    ensures forall k :: 0 <= k < |variables| ==> ExportLinesOf(variables)[k] == Exec("export", [variables[k]])
  {
    if variables != [] {
      ExportsOnePerVariable(variables[..|variables| - 1]);
    }
  }

  // ---------------------------------------------------------- pre-build phase

  /** A `git checkout` command. */
  predicate IsCheckout(line: Line)
  {
    line.Exec? && line.cmd == "git" && |line.args| >= 1 && line.args[0] == "checkout"
  }

  /** The pre-build phase opens with the hostname notice, an `echo` that
      names the build's host exactly when one is set. */
  lemma HostnameNotice(lib: Library, info: ShellScriptInfo)
    requires |info.build.sha| >= 8
    ensures PreBuildLines(lib, info)[0] == HostnameLine(info.build)
    ensures var line := HostnameLine(info.build);
      && line.Exec? && line.cmd == "echo" && |line.args| == 1
      && (line.args[0] == "Running on $(hostname)..." <==> info.build.hostname == "")
  {
    var h := info.build.hostname;
    if h != "" {
      var named := "Running on $(hostname) via " + h + "...";
      assert named[22] == ' ';
      assert "Running on $(hostname)..."[22] == '.';
    }
  }

  /** Without `AllowGitFetch` the working copy is always cloned afresh:
      the notice, the five clone steps and the checkout, with no `if` and
      no `git fetch`. */
  lemma CloneOnly(lib: Library, info: ShellScriptInfo)
    requires |info.build.sha| >= 8 && !info.build.allowGitFetch
    ensures var lines := PreBuildLines(lib, info);
      && |lines| == 8
      && lines[1..6] == CloneLines(lib, info.build, FullProjectDir(lib, info))
      && lines[6..] == CheckoutLines(lib, info.build)
      && Flat(lines)
      && forall k :: 0 <= k < |lines| ==> lines[k] != Exec("git", ["fetch", "origin"])
  {
    var lines := PreBuildLines(lib, info);
    var dir := FullProjectDir(lib, info);
    assert lines == [HostnameLine(info.build)] + CloneLines(lib, info.build, dir) + CheckoutLines(lib, info.build);
    assert lines[1..6] == CloneLines(lib, info.build, dir);
    assert lines[6..] == CheckoutLines(lib, info.build);
  }

  /** With `AllowGitFetch` an existing working copy is brought up to date
      and a missing one cloned: `if [[ -d <gitDir> ]]`, the fetch steps,
      `else`, the clone steps, `fi`, then the checkout. */
  lemma FetchOrClone(lib: Library, info: ShellScriptInfo)
    requires |info.build.sha| >= 8 && info.build.allowGitFetch
    ensures var lines := PreBuildLines(lib, info);
            var dir := FullProjectDir(lib, info);
      && |lines| == 17
      && lines[1] == IfDirectory(lib, lib.joinPath(dir, ".git"))
      && lines[2..8] == FetchSteps(lib, info.build, dir)
      && lines[8] == Else
      && lines[9..14] == CloneLines(lib, info.build, dir)
      && lines[14] == EndIf
      && lines[15..] == CheckoutLines(lib, info.build)
  {
    var lines := PreBuildLines(lib, info);
    var dir := FullProjectDir(lib, info);
    var fetch := FetchLines(lib, info.build, dir, GitDir(lib, info));
    assert |FetchSteps(lib, info.build, dir)| == 6;
    assert |CloneLines(lib, info.build, dir)| == 5;
    assert |fetch| == 14;
    assert lines == [HostnameLine(info.build)] + fetch + CheckoutLines(lib, info.build);
    assert lines[1..15] == fetch;
    assert lines[15..] == CheckoutLines(lib, info.build);
    assert fetch[1..7] == FetchSteps(lib, info.build, dir);
    assert fetch[8..13] == CloneLines(lib, info.build, dir);
  }

  /** No line of `lines` is a `git checkout`. */
  predicate NoCheckout(lines: seq<Line>)
  {
    forall k :: 0 <= k < |lines| ==> !IsCheckout(lines[k])
  }

  lemma NoCheckoutAppend(a: seq<Line>, b: seq<Line>)
    requires NoCheckout(a) && NoCheckout(b)
    ensures NoCheckout(a + b)
  {
    forall k | 0 <= k < |a + b| ensures !IsCheckout((a + b)[k]) {
      if k < |a| {
        assert (a + b)[k] == a[k];
      } else {
        assert (a + b)[k] == b[k - |a|];
      }
    }
  }

  /** Neither way of getting the repository checks anything out. */
  lemma SyncChecksOutNothing(lib: Library, info: ShellScriptInfo)
    ensures NoCheckout([HostnameLine(info.build)] + SyncLines(lib, info))
  {
    var build := info.build;
    var dir := FullProjectDir(lib, info);
    var clone := CloneLines(lib, build, dir);
    assert NoCheckout(clone);
    if build.allowGitFetch {
      var steps := FetchSteps(lib, build, dir);
      assert NoCheckout(steps);
      NoCheckoutAppend([IfDirectory(lib, GitDir(lib, info))], steps);
      NoCheckoutAppend([IfDirectory(lib, GitDir(lib, info))] + steps, [Else]);
      NoCheckoutAppend([IfDirectory(lib, GitDir(lib, info))] + steps + [Else], clone);
      NoCheckoutAppend([IfDirectory(lib, GitDir(lib, info))] + steps + [Else] + clone, [EndIf]);
    }
    NoCheckoutAppend([HostnameLine(build)], SyncLines(lib, info));
  }

  /** The checkout comes last and names the full commit; the line before
      it reports the commit's first eight characters and the ref.  No
      earlier line checks anything out. */
  lemma CheckoutIsLast(lib: Library, info: ShellScriptInfo)
    requires |info.build.sha| >= 8
    ensures var lines := PreBuildLines(lib, info);
      && |lines| >= 3
      && lines[|lines| - 1] == Exec("git", ["checkout", info.build.sha])
      && lines[|lines| - 2] == Echo(lib, "Checking out " + info.build.sha[..8] + " as " + info.build.refName + "...")
      && forall k :: 0 <= k < |lines| - 1 ==> !IsCheckout(lines[k])
  {
    var before := [HostnameLine(info.build)] + SyncLines(lib, info);
    var checkout := CheckoutLines(lib, info.build);
    SyncChecksOutNothing(lib, info);
    assert NoCheckout(checkout[..1]);
    NoCheckoutAppend(before, checkout[..1]);
    var lines := PreBuildLines(lib, info);
    assert lines == before + checkout;
    assert lines[..|lines| - 1] == before + checkout[..1];
    forall k | 0 <= k < |lines| - 1 ensures !IsCheckout(lines[k]) {
      assert lines[k] == (before + checkout[..1])[k];
    }
  }

  /** For the commit `abcdef1234567890` the narration shows `abcdef12`
      and the checkout names the whole commit. */
  lemma CheckoutExample(lib: Library, build: Build)
    requires build.sha == "abcdef1234567890"
    ensures CheckoutLines(lib, build)
         == [ Echo(lib, "Checking out abcdef12 as " + build.refName + "..."),
              Exec("git", ["checkout", "abcdef1234567890"]) ]
  {
    assert build.sha[..8] == "abcdef12";
    assert "Checking out " + "abcdef12" + " as " == "Checking out abcdef12 as ";
  }

  lemma IfDirectoryOpens(lib: Library, directory: string)
    ensures Delta(IfDirectory(lib, directory)) == 1
  {
    assert IfDirectory(lib, directory).text[..3] == "if ";
  }

  lemma IfFileOpens(lib: Library, file: string)
    ensures Delta(IfFile(lib, file)) == 1
  {
    assert IfFile(lib, file).text[..3] == "if ";
  }

  /** The `if`, `else` and `fi` lines of the pre-build phase balance. */
  lemma PreBuildIsWellNested(lib: Library, info: ShellScriptInfo)
    requires |info.build.sha| >= 8
    ensures WellNested(PreBuildLines(lib, info))
  {
    var build := info.build;
    var dir := FullProjectDir(lib, info);
    var head := [HostnameLine(build)];
    var checkout := CheckoutLines(lib, build);
    FlatIsWellNested(head);
    FlatIsWellNested(checkout);
    if build.allowGitFetch {
      IfDirectoryOpens(lib, GitDir(lib, info));
      IfElseIsWellNested(IfDirectory(lib, GitDir(lib, info)), FetchSteps(lib, build, dir), CloneLines(lib, build, dir));
    } else {
      FlatIsWellNested(CloneLines(lib, build, dir));
    }
    WellNestedAppend(head, SyncLines(lib, info));
    WellNestedAppend(head + SyncLines(lib, info), checkout);
  }

  // ------------------------------------------------------------ command phase

  lemma {:induction false} TrimEachPieces(pieces: seq<string>)
    ensures |TrimEach(pieces)| == |pieces|
    ensures forall k :: 0 <= k < |pieces| ==> TrimEach(pieces)[k] == TrimSpace(pieces[k])
  {
    if pieces != [] {
      TrimEachPieces(pieces[..|pieces| - 1]);
    }
  }

  /** The command text is trimmed as a whole and cut at its newlines; the
      pieces, joined again by newlines, are the trimmed text, and there is
      at least one.  Each command line is its piece trimmed once more, so
      it holds no newline and neither starts nor ends with a space. */
  lemma CommandPiecesAreTrimmedLines(commands: string)
    ensures Join(Split(TrimSpace(commands), '\n'), "\n") == TrimSpace(commands)
    ensures |CommandPieces(commands)| == |Split(TrimSpace(commands), '\n')| >= 1
    ensures forall k :: 0 <= k < |CommandPieces(commands)| ==>
              && CommandPieces(commands)[k] == TrimSpace(Split(TrimSpace(commands), '\n')[k])
              && '\n' !in CommandPieces(commands)[k]
              && Trimmed(CommandPieces(commands)[k])
  {
    var lines := Split(TrimSpace(commands), '\n');
    JoinSplit(TrimSpace(commands), '\n');
    TrimEachPieces(lines);
    SplitPiecesHaveNoSeparator(TrimSpace(commands), '\n');
    forall k | 0 <= k < |lines|
      ensures '\n' !in TrimSpace(lines[k]) && Trimmed(TrimSpace(lines[k]))
    {
      TrimSpaceEnds(lines[k]);
      TrimSpaceOmits(lines[k], '\n');
    }
  }

  /** `s` neither starts nor ends with a space. */
  predicate Trimmed(s: string)
  {
    s == "" || (!IsSpace(s[0]) && !IsSpace(s[|s| - 1]))
  }

  /** A runner with `DisableVerbose` writes each command line alone. */
  lemma {:induction false} QuietPieces(lib: Library, pieces: seq<string>)
    ensures |PiecesLines(lib, false, pieces)| == |pieces|
    ensures forall k :: 0 <= k < |pieces| ==> PiecesLines(lib, false, pieces)[k] == Verbatim(pieces[k])
  {
    if pieces != [] {
      QuietPieces(lib, pieces[..|pieces| - 1]);
    }
  }

  /** Any other runner writes its announcement before each command line. */
  lemma {:induction false} VerbosePieces(lib: Library, pieces: seq<string>)
    ensures |PiecesLines(lib, true, pieces)| == 2 * |pieces|
    ensures forall k :: 0 <= k < |pieces| ==>
              && PiecesLines(lib, true, pieces)[2 * k] == Announcement(lib, pieces[k])
              && PiecesLines(lib, true, pieces)[2 * k + 1] == Verbatim(pieces[k])
  {
    if pieces != [] {
      var n := |pieces| - 1;
      var front := pieces[..n];
      VerbosePieces(lib, front);
      var lines := PiecesLines(lib, true, pieces);
      assert lines == PiecesLines(lib, true, front) + [Announcement(lib, pieces[n]), Verbatim(pieces[n])];
      forall k | 0 <= k < |pieces|
        ensures lines[2 * k] == Announcement(lib, pieces[k]) && lines[2 * k + 1] == Verbatim(pieces[k])
      {
        if k < n {
          assert pieces[k] == front[k];
        }
      }
    }
  }

  /** The lines of the pieces behind a first line, by position. */
  lemma PiecesAfter(lib: Library, first: Line, verbose: bool, pieces: seq<string>)
    ensures var lines := [first] + PiecesLines(lib, verbose, pieces);
      && (!verbose ==>
            && |lines| == 1 + |pieces|
            && forall k :: 0 <= k < |pieces| ==> lines[1 + k] == Verbatim(pieces[k]))
      && (verbose ==>
            && |lines| == 1 + 2 * |pieces|
            && forall k :: 0 <= k < |pieces| ==>
                 lines[1 + 2 * k] == Announcement(lib, pieces[k]) && lines[2 + 2 * k] == Verbatim(pieces[k]))
  {
    var body := PiecesLines(lib, verbose, pieces);
    var lines := [first] + body;
    if verbose {
      VerbosePieces(lib, pieces);
      forall k | 0 <= k < |pieces|
        ensures lines[1 + 2 * k] == Announcement(lib, pieces[k]) && lines[2 + 2 * k] == Verbatim(pieces[k])
      {
        assert lines[1 + 2 * k] == body[2 * k];
        assert lines[2 + 2 * k] == body[2 * k + 1];
      }
    } else {
      QuietPieces(lib, pieces);
      forall k | 0 <= k < |pieces| ensures lines[1 + k] == Verbatim(pieces[k]) {
        assert lines[1 + k] == body[k];
      }
    }
  }

  /** The command phase: `cd` into the build directory, then each command
      line, behind its announcement unless the runner sets
      `DisableVerbose` to true. */
  lemma CommandPhaseShape(lib: Library, info: ShellScriptInfo)
    ensures var lines := CommandPhaseLines(lib, info);
            var pieces := CommandPieces(info.build.commands);
      && (Verbose(info.build) <==> info.build.runner.disableVerbose != Some(true))
      && |lines| >= 1 && lines[0] == Exec("cd", [FullProjectDir(lib, info)])
      && (!Verbose(info.build) ==>
            && |lines| == 1 + |pieces|
            && forall k :: 0 <= k < |pieces| ==> lines[1 + k] == Verbatim(pieces[k]))
      && (Verbose(info.build) ==>
            && |lines| == 1 + 2 * |pieces|
            && forall k :: 0 <= k < |pieces| ==>
                 lines[1 + 2 * k] == Announcement(lib, pieces[k]) && lines[2 + 2 * k] == Verbatim(pieces[k]))
  {
    PiecesAfter(lib, CdBuildDirLine(lib, info), Verbose(info.build), CommandPieces(info.build.commands));
  }

  lemma FlatAppend(a: seq<Line>, b: seq<Line>)
    requires Flat(a) && Flat(b)
    ensures Flat(a + b)
  {
    forall k | 0 <= k < |a + b| ensures Delta((a + b)[k]) == 0 && (a + b)[k] != Else {
      if k < |a| {
        assert (a + b)[k] == a[k];
      } else {
        assert (a + b)[k] == b[k - |a|];
      }
    }
  }

  lemma {:induction false} PiecesAreFlat(lib: Library, verbose: bool, pieces: seq<string>)
    ensures Flat(PiecesLines(lib, verbose, pieces))
  {
    if pieces != [] {
      PiecesAreFlat(lib, verbose, pieces[..|pieces| - 1]);
      FlatAppend(PiecesLines(lib, verbose, pieces[..|pieces| - 1]), PieceLines(lib, verbose, pieces[|pieces| - 1]));
    }
  }

  /** The command phase opens, closes and splits no block of its own: a
      user's line that reads `fi` is the user's business. */
  lemma CommandPhaseIsFlat(lib: Library, info: ShellScriptInfo)
    ensures Flat(CommandPhaseLines(lib, info))
  {
    PiecesAreFlat(lib, Verbose(info.build), CommandPieces(info.build.commands));
    FlatAppend([CdBuildDirLine(lib, info)], PiecesLines(lib, Verbose(info.build), CommandPieces(info.build.commands)));
  }

  // A worked example: the command text " echo hi\n\n  ls\n" on a verbose
  // runner, one step of `generateCommands` at a time.

  lemma ExampleTrimsText()
    ensures TrimSpace(" echo hi\n\n  ls\n") == "echo hi\n\n  ls"
  {
    var t := " echo hi\n\n  ls\n";
    assert t[1..] == "echo hi\n\n  ls\n";
    var u := "echo hi\n\n  ls\n";
    assert u[..|u| - 1] == "echo hi\n\n  ls";
    var v := "echo hi\n\n  ls";
    assert !IsSpace(v[0]) && !IsSpace(v[|v| - 1]);
  }

  /** Two lines around an empty one. */
  lemma SplitAroundEmptyLine(x: string, y: string)
    requires '\n' !in x && '\n' !in y
    ensures Split(x + "\n" + "\n" + y, '\n') == [x, "", y]
  {
    var tail := [] + ['\n'] + y;
    assert x + "\n" + "\n" + y == x + ['\n'] + tail;
    SplitAfterPiece(x, '\n', tail);
    SplitAfterPiece([], '\n', y);
    SplitWithoutSeparator(y, '\n');
  }

  lemma ExampleSplitsLines()
    ensures Split("echo hi\n\n  ls", '\n') == ["echo hi", "", "  ls"]
  {
    assert "echo hi\n\n  ls" == "echo hi" + "\n" + "\n" + "  ls";
    SplitAroundEmptyLine("echo hi", "  ls");
  }

  lemma ExampleTrimsEach()
    ensures TrimEach(["echo hi", "", "  ls"]) == ["echo hi", "", "ls"]
  {
    var p := ["echo hi", "", "  ls"];
    assert TrimSpace("echo hi") == "echo hi";
    assert "  ls"[1..] == " ls";
    assert " ls"[1..] == "ls";
    assert TrimSpace("  ls") == "ls";
    assert TrimEach(p[..1]) == ["echo hi"] by { assert p[..1][..0] == []; }
    assert TrimEach(p[..2]) == ["echo hi", ""] by { assert p[..2][..1] == p[..1]; }
    assert p[..2] == p[..|p| - 1];
  }

  lemma ExamplePieces()
    ensures CommandPieces(" echo hi\n\n  ls\n") == ["echo hi", "", "ls"]
  {
    ExampleTrimsText();
    ExampleSplitsLines();
    ExampleTrimsEach();
  }

  lemma ExampleWritesPieces(lib: Library)
    ensures PiecesLines(lib, true, ["echo hi", "", "ls"])
         == [Echo(lib, "$ echo hi"), Verbatim("echo hi"), Exec("echo", []), Verbatim(""), Echo(lib, "$ ls"), Verbatim("ls")]
  {
    var p := ["echo hi", "", "ls"];
    assert "$ " + "echo hi" == "$ echo hi";
    assert "$ " + "ls" == "$ ls";
    assert PiecesLines(lib, true, p[..1]) == [Echo(lib, "$ echo hi"), Verbatim("echo hi")] by { assert p[..1][..0] == []; }
    assert PiecesLines(lib, true, p[..2]) == [Echo(lib, "$ echo hi"), Verbatim("echo hi"), Exec("echo", []), Verbatim("")] by { assert p[..2][..1] == p[..1]; }
    assert p[..2] == p[..|p| - 1];
  }

  /** On a verbose runner, the text " echo hi\n\n  ls\n" yields the
      announced lines `echo hi`, the empty line (a bare `echo`) and `ls`. */
  lemma VerboseExample(lib: Library)
    ensures PiecesLines(lib, true, CommandPieces(" echo hi\n\n  ls\n"))
         == [Echo(lib, "$ echo hi"), Verbatim("echo hi"), Exec("echo", []), Verbatim(""), Echo(lib, "$ ls"), Verbatim("ls")]
  {
    ExamplePieces();
    ExampleWritesPieces(lib);
  }

  /** With `DisableVerbose` set, the same text yields the three command
      lines alone, the empty one included. */
  lemma QuietExample(lib: Library)
    ensures PiecesLines(lib, false, CommandPieces(" echo hi\n\n  ls\n"))
         == [Verbatim("echo hi"), Verbatim(""), Verbatim("ls")]
  {
    ExamplePieces();
    var p := ["echo hi", "", "ls"];
    assert PiecesLines(lib, false, p[..1]) == [Verbatim("echo hi")] by { assert p[..1][..0] == []; }
    assert PiecesLines(lib, false, p[..2]) == [Verbatim("echo hi"), Verbatim("")] by { assert p[..2][..1] == p[..1]; }
    assert p[..2] == p[..|p| - 1];
  }

  // --------------------------------------------------------- artifact phase

  /** The `-wholename` filters are those of the string entries, and only
      those: each filter comes from a string entry, each string entry
      gives a filter, and entries of other types give none. */
  lemma {:induction false} WholenamesOfStrings(lib: Library, items: seq<Value>)
    ensures |WholenameTerms(lib, items)| <= |items|
    ensures forall k :: 0 <= k < |WholenameTerms(lib, items)| ==> FilterOfEntry(lib, items, WholenameTerms(lib, items)[k])
    ensures forall j :: 0 <= j < |items| && items[j].Str? ==> Wholename(lib, items[j].s) in WholenameTerms(lib, items)
  {
    WholenamesAtMost(lib, items);
    forall k | 0 <= k < |WholenameTerms(lib, items)|
      ensures FilterOfEntry(lib, items, WholenameTerms(lib, items)[k])
    {
      var j := WholenameSource(lib, items, k);
    }
    forall j | 0 <= j < |items| && items[j].Str? ensures Wholename(lib, items[j].s) in WholenameTerms(lib, items) {
      WholenameOfEntry(lib, items, j);
    }
  }

  /** `filter` is the filter of some string entry of `items`. */
  predicate FilterOfEntry(lib: Library, items: seq<Value>, filter: string)
  {
    exists j :: 0 <= j < |items| && items[j].Str? && filter == Wholename(lib, items[j].s)
  }

  lemma {:induction false} WholenamesAtMost(lib: Library, items: seq<Value>)
    ensures |WholenameTerms(lib, items)| <= |items|
  {
    if items != [] {
      WholenamesAtMost(lib, items[..|items| - 1]);
    }
  }

  /** The entry the k-th filter comes from. */
  lemma {:induction false} WholenameSource(lib: Library, items: seq<Value>, k: int) returns (j: int)
    requires 0 <= k < |WholenameTerms(lib, items)|
    ensures 0 <= j < |items| && items[j].Str? && WholenameTerms(lib, items)[k] == Wholename(lib, items[j].s)
  {
    var n := |items| - 1;
    var front := items[..n];
    var before := WholenameTerms(lib, front);
    if k < |before| {
      j := WholenameSource(lib, front, k);
      assert items[j] == front[j];
    } else {
      j := n;
    }
  }

  /** A string entry's filter is among the filters. */
  lemma WholenameOfEntry(lib: Library, items: seq<Value>, j: int)
    requires 0 <= j < |items| && items[j].Str?
    ensures Wholename(lib, items[j].s) in WholenameTerms(lib, items)
  {
    assert items == items[..j] + [items[j]] + items[j + 1..];
    WholenamesAppend(lib, items[..j] + [items[j]], items[j + 1..]);
    WholenamesAppend(lib, items[..j], [items[j]]);
    WholenamesOfOne(lib, items[j]);
  }

  /** The filters of two lists of entries, one after the other, are the
      filters of the first list followed by those of the second. */
  lemma {:induction false} WholenamesAppend(lib: Library, a: seq<Value>, b: seq<Value>)
    ensures WholenameTerms(lib, a + b) == WholenameTerms(lib, a) + WholenameTerms(lib, b)
    decreases |b|
  {
    if b == [] {
      assert a + b == a;
    } else {
      var n := |b| - 1;
      assert (a + b)[..|a + b| - 1] == a + b[..n];
      assert (a + b)[|a + b| - 1] == b[n];
      WholenamesAppend(lib, a, b[..n]);
    }
  }

  /** A string entry gives exactly its own filter; an entry of any other
      type gives none. */
  lemma WholenamesOfOne(lib: Library, item: Value)
    ensures item.Str? ==> WholenameTerms(lib, [item]) == [Wholename(lib, item.s)]
    ensures !item.Str? ==> WholenameTerms(lib, [item]) == []
  {
    assert [item][..0] == [];
  }

  /** Two string entries with the same path give two filters, in order. */
  lemma WholenamesKeepRepeats(lib: Library, s: string, t: string)
    ensures WholenameTerms(lib, [Str(s), Str(t)]) == [Wholename(lib, s), Wholename(lib, t)]
  {
    WholenamesAppend(lib, [Str(s)], [Str(t)]);
    WholenamesOfOne(lib, Str(s));
    WholenamesOfOne(lib, Str(t));
    assert [Str(s)] + [Str(t)] == [Str(s), Str(t)];
  }

  /** Some entry of the rule's `paths` list is a string. */
  predicate HasStringPath(rule: map<string, Value>)
  {
    exists j :: 0 <= j < |PathItems(rule)| && PathItems(rule)[j].Str?
  }

  lemma FindIsNotUntracked(lib: Library, files: seq<string>, manifest: string)
    ensures FindLine(lib, files, manifest) != UntrackedLine(lib, manifest)
  {
    assert FindLine(lib, files, manifest).text[0] == 'f';
    assert UntrackedLine(lib, manifest).text[0] == 'g';
  }

  /** `findFiles` writes nothing for a rule that is not a map.  For a map
      it writes the `find` line exactly when some path is a string, the
      `git ls-files -o` line exactly when `untracked` is the boolean true,
      no other line, and, when it writes both, the `find` line first. */
  lemma FindFilesShape(lib: Library, list: Value, manifest: string)
    ensures !list.Hash? ==> FindFilesLines(lib, list, manifest) == []
    ensures list.Hash? ==>
              var lines := FindFilesLines(lib, list, manifest);
              var find := FindLine(lib, WholenameTerms(lib, PathItems(list.entries)), manifest);
              && |lines| <= 2
              && (find in lines <==> HasStringPath(list.entries))
              && (UntrackedLine(lib, manifest) in lines <==> Lookup(list.entries, "untracked") == Bool(true))
              && (|lines| == 2 ==> lines == [find, UntrackedLine(lib, manifest)])
              && (forall l :: l in lines ==> l == find || l == UntrackedLine(lib, manifest))
              && (!HasStringPath(list.entries) && Lookup(list.entries, "untracked") != Bool(true) ==> lines == [])
  {
    if list.Hash? {
      var items := PathItems(list.entries);
      WholenamesOfStrings(lib, items);
      FindIsNotUntracked(lib, WholenameTerms(lib, items), manifest);
      if HasStringPath(list.entries) {
        var j :| 0 <= j < |items| && items[j].Str?;
        assert Wholename(lib, items[j].s) in WholenameTerms(lib, items);
      }
    }
  }

  // A rule whose `paths` hold the text-file glob under `log` and a
  // boolean, with `untracked` true, gives a `find` line with the one
  // filter for that glob below `./` (the boolean entry is skipped), then
  // the `git ls-files -o` line.
  lemma FindFilesExample(lib: Library, manifest: string)
    ensures FindFilesLines(lib, Hash(map["paths" := List([Str("log/*.txt"), Bool(true)]), "untracked" := Bool(true)]), manifest)
         == [ FindLine(lib, ["-wholename " + lib.quote("./" + lib.cleanPath("log/*.txt"))], manifest),
              UntrackedLine(lib, manifest) ]
  {
    var items := [Str("log/*.txt"), Bool(true)];
    var first := [Str("log/*.txt")];
    assert first[..0] == [];
    assert WholenameTerms(lib, first) == [Wholename(lib, "log/*.txt")];
    assert items[..1] == first;
    assert WholenameTerms(lib, items) == [Wholename(lib, "log/*.txt")];
  }

  /** The lines `findFiles` writes are flat. */
  lemma FoundIsFlat(lib: Library, list: Value, manifest: string)
    ensures Flat(FindFilesLines(lib, list, manifest))
  {
    if list.Hash? {
      var files := WholenameTerms(lib, PathItems(list.entries));
      assert FindLine(lib, files, manifest).text[..3] == "fin";
      assert UntrackedLine(lib, manifest).text[..3] == "git";
    }
  }

  /** The artifact phase: `cd` into the build directory, the lines of
      `findFiles`, then the archive block and the upload block, in that
      order.  Without an `artifacts` map it is the ten fixed lines. */
  lemma PostBuildShape(lib: Library, info: ShellScriptInfo)
    ensures var lines := PostBuildLines(lib, info);
            var found := FindFilesLines(lib, Lookup(info.build.options, "artifacts"), "artifacts.files");
      && |lines| == 10 + |found|
      && lines[0] == CdBuildDirLine(lib, info)
      && lines[1..1 + |found|] == found
      && lines[1 + |found|..5 + |found|] == ArchiveLines(lib)
      && lines[5 + |found|..] == UploadLines(lib, info.build)
    ensures !Lookup(info.build.options, "artifacts").Hash? ==>
              PostBuildLines(lib, info) == [CdBuildDirLine(lib, info)] + ArchiveLines(lib) + UploadLines(lib, info.build)
  {
    var found := FindFilesLines(lib, Lookup(info.build.options, "artifacts"), "artifacts.files");
    var lines := PostBuildLines(lib, info);
    var archive := ArchiveLines(lib);
    var upload := UploadLines(lib, info.build);
    assert lines == [CdBuildDirLine(lib, info)] + found + archive + upload;
    assert lines[1..1 + |found|] == found;
    assert lines[1 + |found|..5 + |found|] == archive;
    assert lines[5 + |found|..] == upload;
    FindFilesShape(lib, Lookup(info.build.options, "artifacts"), "artifacts.files");
    if !Lookup(info.build.options, "artifacts").Hash? {
      assert [CdBuildDirLine(lib, info)] + found == [CdBuildDirLine(lib, info)];
    }
  }

  /** The `if`/`fi` lines of the artifact phase balance. */
  lemma PostBuildIsWellNested(lib: Library, info: ShellScriptInfo)
    ensures WellNested(PostBuildLines(lib, info))
  {
    var found := FindFilesLines(lib, Lookup(info.build.options, "artifacts"), "artifacts.files");
    var head := [CdBuildDirLine(lib, info)] + found;
    FoundIsFlat(lib, Lookup(info.build.options, "artifacts"), "artifacts.files");
    FlatAppend([CdBuildDirLine(lib, info)], found);
    FlatIsWellNested(head);
    var packing := [Echo(lib, "Archiving artifacts..."), Exec("tar", ["-zcv", "-T", "artifacts.files", "-f", "artifacts.tgz"])];
    IfFileOpens(lib, "artifacts.files");
    IfIsWellNested(IfFile(lib, "artifacts.files"), packing);
    assert [IfFile(lib, "artifacts.files")] + packing + [EndIf] == ArchiveLines(lib);
    var sending := [Echo(lib, "Uploading artifacts..."), Exec("du", ["-h", "artifacts.tgz"]), CurlLine(lib, info.build)];
    IfFileOpens(lib, "artifacts.tgz");
    IfIsWellNested(IfFile(lib, "artifacts.tgz"), sending);
    assert [IfFile(lib, "artifacts.tgz")] + sending + [EndIf] == UploadLines(lib, info.build);
    WellNestedAppend(head, ArchiveLines(lib));
    WellNestedAppend(head + ArchiveLines(lib), UploadLines(lib, info.build));
  }

  /** The upload posts the archive with the build token as the value of
      the `BUILD-TOKEN` header, to the upload address of the runner and
      build, which is the last argument. */
  lemma UploadRequest(lib: Library, build: Build)
    ensures var args := CurlLine(lib, build).args;
      && CurlLine(lib, build).cmd == "curl"
      && |args| == 15
      && args[6] == "POST"
      && args[10] == "-H" && args[11] == "BUILD-TOKEN: " + build.token
      && args[12] == "-F" && args[13] == "file=@artifacts.tgz"
      && args[|args| - 1] == lib.artifactsUploadURL(build.runner, build.id)
  {
  }

  /** The pre-build and command phases do not read the build token. */
  lemma PhasesIgnoreToken(lib: Library, info: ShellScriptInfo, token: string)
    requires |info.build.sha| >= 8
    ensures var other := info.(build := info.build.(token := token));
      && PreBuildLines(lib, other) == PreBuildLines(lib, info)
      && CommandPhaseLines(lib, other) == CommandPhaseLines(lib, info)
  {
    var other := info.(build := info.build.(token := token));
    assert FullProjectDir(lib, other) == FullProjectDir(lib, info);
    assert SyncLines(lib, other) == SyncLines(lib, info);
    assert CommandPieces(other.build.commands) == CommandPieces(info.build.commands);
  }

  /** In the artifact phase the build token is used in one place only: a
      build that differs only in its token has an artifact phase that
      differs only in the upload line, and there only in the header
      argument. */
  lemma TokenOnlyInUpload(lib: Library, info: ShellScriptInfo, token: string)
    ensures var other := info.(build := info.build.(token := token));
            var post := PostBuildLines(lib, info);
      && |post| >= 2
      && post[|post| - 2] == CurlLine(lib, info.build)
      && PostBuildLines(lib, other) == post[|post| - 2 := CurlLine(lib, other.build)]
      && CurlLine(lib, other.build).args == CurlLine(lib, info.build).args[11 := "BUILD-TOKEN: " + token]
  {
    var other := info.(build := info.build.(token := token));
    var post := PostBuildLines(lib, info);
    var found := FindFilesLines(lib, Lookup(info.build.options, "artifacts"), "artifacts.files");
    var head := [CdBuildDirLine(lib, info)] + found + ArchiveLines(lib);
    assert post == head + UploadLines(lib, info.build);
    assert PostBuildLines(lib, other) == head + UploadLines(lib, other.build);
  }

  /** The build options, and with them the artifact `paths`, reach the
      three phases only through the lines of `findFiles`: a build that
      differs only in its options has the same pre-build and command
      phases, and an artifact phase with the same `cd` line before the
      `findFiles` lines and the same archive and upload blocks after them.
      The exports are not covered: `GetVariables` receives the whole
      build. */
  lemma OptionsOnlyInFind(lib: Library, info: ShellScriptInfo, options: map<string, Value>)
    requires |info.build.sha| >= 8
    ensures var other := info.(build := info.build.(options := options));
            var post := PostBuildLines(lib, info);
            var post' := PostBuildLines(lib, other);
            var n := |FindFilesLines(lib, Lookup(info.build.options, "artifacts"), "artifacts.files")|;
            var n' := |FindFilesLines(lib, Lookup(options, "artifacts"), "artifacts.files")|;
      && PreBuildLines(lib, other) == PreBuildLines(lib, info)
      && CommandPhaseLines(lib, other) == CommandPhaseLines(lib, info)
      && |post| == 10 + n && |post'| == 10 + n'
      && post'[0] == post[0]
      && post'[1 + n'..] == post[1 + n..]
  {
    var other := info.(build := info.build.(options := options));
    PhasesIgnoreOptions(lib, info, other);
    AroundFound(lib, info);
    AroundFound(lib, other);
    assert CdBuildDirLine(lib, other) == CdBuildDirLine(lib, info);
    assert UploadLines(lib, other.build) == UploadLines(lib, info.build);
  }

  lemma AroundFound(lib: Library, info: ShellScriptInfo)
    ensures var n := |FindFilesLines(lib, Lookup(info.build.options, "artifacts"), "artifacts.files")|;
      && |PostBuildLines(lib, info)| == 10 + n
      && PostBuildLines(lib, info)[0] == CdBuildDirLine(lib, info)
      && PostBuildLines(lib, info)[1 + n..] == ArchiveLines(lib) + UploadLines(lib, info.build)
  {
    var found := FindFilesLines(lib, Lookup(info.build.options, "artifacts"), "artifacts.files");
    var rest := ArchiveLines(lib) + UploadLines(lib, info.build);
    assert PostBuildLines(lib, info) == [CdBuildDirLine(lib, info)] + found + rest;
  }

  lemma PhasesIgnoreOptions(lib: Library, info: ShellScriptInfo, other: ShellScriptInfo)
    requires |info.build.sha| >= 8
    requires other == info.(build := info.build.(options := other.build.options))
    ensures PreBuildLines(lib, other) == PreBuildLines(lib, info)
    ensures CommandPhaseLines(lib, other) == CommandPhaseLines(lib, info)
  {
    assert FullProjectDir(lib, other) == FullProjectDir(lib, info);
    assert SyncLines(lib, other) == SyncLines(lib, info);
    assert CommandPieces(other.build.commands) == CommandPieces(info.build.commands);
  }

  // ---------------------------------------------------------------- script

  /** The layout of the script, read by position: the interpreter line
      and a blank line, one line per export, `set -eo pipefail`, the three
      `eval` lines with an `echo` between each two.  When the exports are
      all commands, `set -eo pipefail` appears once only, after them. */
  lemma LayoutShape(lib: Library, exports: seq<Line>, pre: seq<Line>, cmds: seq<Line>, post: seq<Line>)
    ensures var lines := Layout(lib, exports, pre, cmds, post);
            var n := |exports|;
      && |lines| == n + 8
      && lines[0] == Literal("#!/usr/bin/env bash") && lines[1] == Literal("")
      && lines[2..n + 2] == exports
      && lines[n + 2] == Literal("set -eo pipefail")
      && lines[n + 3] == EvalLine(lib, pre)
      && lines[n + 4] == Literal("echo")
      && lines[n + 5] == EvalLine(lib, cmds)
      && lines[n + 6] == Literal("echo")
      && lines[n + 7] == EvalLine(lib, post)
    ensures (forall k :: 0 <= k < |exports| ==> exports[k].Exec?) ==>
              forall k :: 0 <= k < |Layout(lib, exports, pre, cmds, post)| ==>
                Layout(lib, exports, pre, cmds, post)[k] == Literal("set -eo pipefail") ==> k == |exports| + 2
  {
    LayoutPositions(lib, exports, pre, cmds, post);
    if forall k :: 0 <= k < |exports| ==> exports[k].Exec? {
      StrictModeOnce(lib, exports, pre, cmds, post);
    }
  }

  lemma LayoutPositions(lib: Library, exports: seq<Line>, pre: seq<Line>, cmds: seq<Line>, post: seq<Line>)
    ensures var lines := Layout(lib, exports, pre, cmds, post);
            var n := |exports|;
      && |lines| == n + 8
      && lines[0] == Literal("#!/usr/bin/env bash") && lines[1] == Literal("")
      && lines[2..n + 2] == exports
      && lines[n + 2] == Literal("set -eo pipefail")
      && lines[n + 3] == EvalLine(lib, pre)
      && lines[n + 4] == Literal("echo")
      && lines[n + 5] == EvalLine(lib, cmds)
      && lines[n + 6] == Literal("echo")
      && lines[n + 7] == EvalLine(lib, post)
  {
    var lines := Layout(lib, exports, pre, cmds, post);
    var n := |exports|;
    var header := [Literal("#!/usr/bin/env bash"), Literal("")];
    var tail := [Literal("set -eo pipefail"), EvalLine(lib, pre), Literal("echo"), EvalLine(lib, cmds),
                 Literal("echo"), EvalLine(lib, post)];
    assert lines == header + exports + tail;
    assert lines[2..n + 2] == exports;
  }

  lemma StrictModeOnce(lib: Library, exports: seq<Line>, pre: seq<Line>, cmds: seq<Line>, post: seq<Line>)
    requires forall k :: 0 <= k < |exports| ==> exports[k].Exec?
    ensures forall k :: 0 <= k < |Layout(lib, exports, pre, cmds, post)| ==>
              Layout(lib, exports, pre, cmds, post)[k] == Literal("set -eo pipefail") ==> k == |exports| + 2
  {
    var lines := Layout(lib, exports, pre, cmds, post);
    var n := |exports|;
    LayoutPositions(lib, exports, pre, cmds, post);
    forall k | 0 <= k < n ensures lines[2 + k] == exports[k] {
      assert lines[2 + k] == lines[2..n + 2][k];
    }
    assert EvalLine(lib, pre).text[0] == ':';
    assert EvalLine(lib, cmds).text[0] == ':';
    assert EvalLine(lib, post).text[0] == ':';
  }

  /** The layout with the exports of `variables`, by position. */
  lemma LayoutOfVariables(lib: Library, variables: seq<string>, pre: seq<Line>, cmds: seq<Line>, post: seq<Line>)
    ensures var lines := Layout(lib, ExportLinesOf(variables), pre, cmds, post);
            var n := |variables|;
      && |lines| == n + 8
      && (forall k :: 0 <= k < n ==> lines[2 + k] == Exec("export", [variables[k]]))
      && lines[n + 2] == Literal("set -eo pipefail")
      && (forall k :: 0 <= k < |lines| && lines[k] == Literal("set -eo pipefail") ==> k == n + 2)
      && lines[n + 3] == EvalLine(lib, pre)
      && lines[n + 5] == EvalLine(lib, cmds)
      && lines[n + 7] == EvalLine(lib, post)
  {
    var exports := ExportLinesOf(variables);
    ExportsOnePerVariable(variables);
    LayoutShape(lib, exports, pre, cmds, post);
    var lines := Layout(lib, exports, pre, cmds, post);
    forall k | 0 <= k < |variables| ensures lines[2 + k] == Exec("export", [variables[k]]) {
      assert lines[2 + k] == lines[2..|exports| + 2][k];
    }
  }

  /** The script exports the variables it is run with, one `export` each
      and in order, before anything else runs. */
  lemma ScriptLayout(lib: Library, info: ShellScriptInfo)
    requires |info.build.sha| >= 8
    ensures var lines := ScriptLines(lib, info);
            var vars := Variables(lib, info);
            var n := |vars|;
      && |lines| == n + 8
      && (forall k :: 0 <= k < n ==> lines[2 + k] == Exec("export", [vars[k]]))
      && lines[n + 2] == Literal("set -eo pipefail")
      && (forall k :: 0 <= k < |lines| && lines[k] == Literal("set -eo pipefail") ==> k == n + 2)
      && lines[n + 3] == EvalLine(lib, PreBuildLines(lib, info))
      && lines[n + 5] == EvalLine(lib, CommandPhaseLines(lib, info))
      && lines[n + 7] == EvalLine(lib, PostBuildLines(lib, info))
  {
    LayoutOfVariables(lib, Variables(lib, info), PreBuildLines(lib, info), CommandPhaseLines(lib, info), PostBuildLines(lib, info));
  }
}
