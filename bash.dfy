/** `BashShell` of `shells/bash.go`: the generators of the sync, command and
    artifact phases, and `GenerateScript`, which assembles them into one
    script and picks the interpreter invocation.

    For every generator there is a function that gives the lines it emits
    (`PreBuildLines`, `CommandPhaseLines`, ...) and a method that writes
    them step by step, as the Go code does, proved to produce exactly the
    rendering of those lines. */
module Bash {
  import opened Common
  import opened GoStrings
  import opened Emitter

  function GetName(): string
  {
    "bash"
  }

  /** `fullProjectDir`: the build's project directory with forward slashes. */
  function FullProjectDir(lib: Library, info: ShellScriptInfo): string
  {
    lib.toSlash(info.build.projectDir)
  }

  /** The variables the script exports and runs with. */
  function Variables(lib: Library, info: ShellScriptInfo): seq<string>
  {
    lib.getVariables(info.build, FullProjectDir(lib, info), info.environment)
  }

  // ---------------------------------------------------------------- exports

  function ExportLinesOf(variables: seq<string>): seq<Line>
  {
    if variables == [] then []
    else ExportLinesOf(variables[..|variables| - 1]) + [Exec("export", [variables[|variables| - 1]])]
  }

  function ExportLines(lib: Library, info: ShellScriptInfo): seq<Line>
  {
    ExportLinesOf(Variables(lib, info))
  }

  // ---------------------------------------------------------- pre-build phase

  function CloneLines(lib: Library, build: Build, projectDir: string): seq<Line>
  {
    [ Echo(lib, "Cloning repository..."),
      Exec("rm", ["-rf", projectDir]),
      Exec("mkdir", ["-p", projectDir]),
      Exec("git", ["clone", build.repoURL, projectDir]),
      Exec("cd", [projectDir]) ]
  }

  /** The steps that bring an existing working copy up to date. */
  function FetchSteps(lib: Library, build: Build, projectDir: string): seq<Line>
  {
    [ Echo(lib, "Fetching changes..."),
      Exec("cd", [projectDir]),
      Exec("git", ["clean", "-ffdx"]),
      Exec("git", ["reset", "--hard"]),
      Exec("git", ["remote", "set-url", "origin", build.repoURL]),
      Exec("git", ["fetch", "origin"]) ]
  }

  function FetchLines(lib: Library, build: Build, projectDir: string, gitDir: string): seq<Line>
  {
    [IfDirectory(lib, gitDir)] + FetchSteps(lib, build, projectDir) + [Else]
      + CloneLines(lib, build, projectDir) + [EndIf]
  }

  function CheckoutLines(lib: Library, build: Build): seq<Line>
    requires |build.sha| >= 8
  {
    [ Echo(lib, "Checking out " + build.sha[..8] + " as " + build.refName + "..."),
      Exec("git", ["checkout", build.sha]) ]
  }

  function HostnameLine(build: Build): Line
  {
    if |build.hostname| != 0 then Exec("echo", ["Running on $(hostname) via " + build.hostname + "..."])
    else Exec("echo", ["Running on $(hostname)..."])
  }

  function GitDir(lib: Library, info: ShellScriptInfo): string
  {
    lib.joinPath(FullProjectDir(lib, info), ".git")
  }

  /** The sync steps: where the repository comes from, then the checkout. */
  function SyncLines(lib: Library, info: ShellScriptInfo): seq<Line>
  {
    if info.build.allowGitFetch then FetchLines(lib, info.build, FullProjectDir(lib, info), GitDir(lib, info))
    else CloneLines(lib, info.build, FullProjectDir(lib, info))
  }

  function PreBuildLines(lib: Library, info: ShellScriptInfo): seq<Line>
    requires |info.build.sha| >= 8
  {
    [HostnameLine(info.build)] + SyncLines(lib, info) + CheckoutLines(lib, info.build)
  }

  // ------------------------------------------------------------ command phase

  /** `!helpers.BoolOrDefault(Runner.DisableVerbose, false)`. */
  function Verbose(build: Build): bool
  {
    !BoolOrDefault(build.runner.disableVerbose, false)
  }

  function TrimEach(pieces: seq<string>): seq<string>
  {
    if pieces == [] then []
    else TrimEach(pieces[..|pieces| - 1]) + [TrimSpace(pieces[|pieces| - 1])]
  }

  /** The command lines as the loop of `generateCommands` sees them. */
  function CommandPieces(commands: string): seq<string>
  {
    TrimEach(Split(TrimSpace(commands), '\n'))
  }

  /** The `echo` a verbose runner writes before a command line: the line
      after `$ ` in bold green, or a bare `echo` for an empty line. */
  function Announcement(lib: Library, command: string): Line
  {
    if command != "" then Echo(lib, "$ " + command) else Exec("echo", [])
  }

  /** What one command line turns into. */
  function PieceLines(lib: Library, verbose: bool, command: string): seq<Line>
  {
    (if verbose then [Announcement(lib, command)] else []) + [Verbatim(command)]
  }

  function PiecesLines(lib: Library, verbose: bool, pieces: seq<string>): seq<Line>
  {
    if pieces == [] then []
    else PiecesLines(lib, verbose, pieces[..|pieces| - 1]) + PieceLines(lib, verbose, pieces[|pieces| - 1])
  }

  function CdBuildDirLine(lib: Library, info: ShellScriptInfo): Line
  {
    Exec("cd", [FullProjectDir(lib, info)])
  }

  function CommandPhaseLines(lib: Library, info: ShellScriptInfo): seq<Line>
  {
    [CdBuildDirLine(lib, info)]
      + PiecesLines(lib, Verbose(info.build), CommandPieces(info.build.commands))
  }

  // --------------------------------------------------------- artifact phase

  /** The `find` filter for one artifact path. */
  function Wholename(lib: Library, path: string): string
  {
    "-wholename " + lib.quote("./" + lib.cleanPath(path))
  }

  /** The filters `findFiles` collects: one per string entry, in order;
      entries of any other type are skipped. */
  function WholenameTerms(lib: Library, items: seq<Value>): seq<string>
  {
    if items == [] then []
    else
      var last := items[|items| - 1];
      WholenameTerms(lib, items[..|items| - 1]) + (if last.Str? then [Wholename(lib, last.s)] else [])
  }

  /** The `paths` entries of an artifact rule, when they are a list. */
  function PathItems(rule: map<string, Value>): seq<Value>
  {
    if "paths" in rule && rule["paths"].List? then rule["paths"].items else []
  }

  function FindLine(lib: Library, files: seq<string>, manifest: string): Line
  {
    Literal("find . " + ("'(' " + Join(files, " -or ") + " ')'") + " -type f >> " + lib.quote(manifest))
  }

  function UntrackedLine(lib: Library, manifest: string): Line
  {
    Literal("git ls-files -o >> " + lib.quote(manifest))
  }

  /** `findFiles`: nothing unless the rule is a map; a `find` line when
      some path is a string; a `git ls-files -o` line when `untracked` is
      the boolean true. */
  function FindFilesLines(lib: Library, list: Value, manifest: string): seq<Line>
  {
    match list
    case Hash(rule) =>
      var files := WholenameTerms(lib, PathItems(rule));
      (if |files| != 0 then [FindLine(lib, files, manifest)] else [])
      + (if Lookup(rule, "untracked") == Bool(true) then [UntrackedLine(lib, manifest)] else [])
    case _ => []
  }

  function CurlLine(lib: Library, build: Build): Line
  {
    Exec("curl", ["-s", "-S", "--fail", "--retry", "3", "-X", "POST", "-#",
                  "-o", "artifacts.upload.log",
                  "-H", "BUILD-TOKEN: " + build.token,
                  "-F", "file=@artifacts.tgz",
                  lib.artifactsUploadURL(build.runner, build.id)])
  }

  /** Archive the listed files, if a list was made. */
  function ArchiveLines(lib: Library): seq<Line>
  {
    [ IfFile(lib, "artifacts.files"),
      Echo(lib, "Archiving artifacts..."),
      Exec("tar", ["-zcv", "-T", "artifacts.files", "-f", "artifacts.tgz"]),
      EndIf ]
  }

  /** Upload the archive, if one was made. */
  function UploadLines(lib: Library, build: Build): seq<Line>
  {
    [ IfFile(lib, "artifacts.tgz"),
      Echo(lib, "Uploading artifacts..."),
      Exec("du", ["-h", "artifacts.tgz"]),
      CurlLine(lib, build),
      EndIf ]
  }

  function PostBuildLines(lib: Library, info: ShellScriptInfo): seq<Line>
  {
    [CdBuildDirLine(lib, info)]
      + FindFilesLines(lib, Lookup(info.build.options, "artifacts"), "artifacts.files")
      + ArchiveLines(lib) + UploadLines(lib, info.build)
  }

  // ---------------------------------------------------------------- script

  /** A phase run as one escaped word: `: | eval <phase>`. */
  function EvalLine(lib: Library, phase: seq<Line>): Line
  {
    Literal(": | eval " + lib.shellEscape(RenderLines(lib, phase)))
  }

  /** The script around its parts: the interpreter line and a blank line,
      the exports, the shell options, then the three phases, each run by
      `eval` and separated by an empty `echo`. */
  function Layout(lib: Library, exports: seq<Line>, pre: seq<Line>, cmds: seq<Line>, post: seq<Line>): seq<Line>
  {
    [Literal("#!/usr/bin/env bash"), Literal("")]
      + exports
      + [Literal("set -eo pipefail")]
      + [EvalLine(lib, pre)]
      + [Literal("echo")]
      + [EvalLine(lib, cmds)]
      + [Literal("echo")]
      + [EvalLine(lib, post)]
  }

  function ScriptLines(lib: Library, info: ShellScriptInfo): seq<Line>
    requires |info.build.sha| >= 8
  {
    Layout(lib, ExportLines(lib, info), PreBuildLines(lib, info), CommandPhaseLines(lib, info), PostBuildLines(lib, info))
  }

  // ------------------------------------------------------------ generators
  //
  // Each writer records, as a ghost `done`, the lines written so far since
  // the chunks `c0` it started from, and chains the next emitter's contract
  // on with `Then`.

  method WriteCloneCmd(w: Writer, lib: Library, build: Build, projectDir: string)
    modifies w
    ensures w.chunks == old(w.chunks) + Rendered(lib, CloneLines(lib, build, projectDir))
  {
    ghost var c0 := w.chunks;
    ghost var done := [Echo(lib, "Cloning repository...")];
    EchoColored(w, lib, "Cloning repository...");
    ExecuteCommand(w, lib, "rm", ["-rf", projectDir]);
    Then(lib, c0, done, [Exec("rm", ["-rf", projectDir])]);
    done := done + [Exec("rm", ["-rf", projectDir])];
    ExecuteCommand(w, lib, "mkdir", ["-p", projectDir]);
    Then(lib, c0, done, [Exec("mkdir", ["-p", projectDir])]);
    done := done + [Exec("mkdir", ["-p", projectDir])];
    ExecuteCommand(w, lib, "git", ["clone", build.repoURL, projectDir]);
    Then(lib, c0, done, [Exec("git", ["clone", build.repoURL, projectDir])]);
    done := done + [Exec("git", ["clone", build.repoURL, projectDir])];
    ExecuteCommand(w, lib, "cd", [projectDir]);
    Then(lib, c0, done, [Exec("cd", [projectDir])]);
    done := done + [Exec("cd", [projectDir])];
    assert done == CloneLines(lib, build, projectDir);
  }

  method WriteFetchCmd(w: Writer, lib: Library, build: Build, projectDir: string, gitDir: string)
    modifies w
    ensures w.chunks == old(w.chunks) + Rendered(lib, FetchLines(lib, build, projectDir, gitDir))
  {
    ghost var c0 := w.chunks;
    ghost var done := [IfDirectory(lib, gitDir)];
    WriteIfDirectory(w, lib, gitDir);
    EchoColored(w, lib, "Fetching changes...");
    Then(lib, c0, done, [Echo(lib, "Fetching changes...")]);
    done := done + [Echo(lib, "Fetching changes...")];
    ExecuteCommand(w, lib, "cd", [projectDir]);
    Then(lib, c0, done, [Exec("cd", [projectDir])]);
    done := done + [Exec("cd", [projectDir])];
    ExecuteCommand(w, lib, "git", ["clean", "-ffdx"]);
    Then(lib, c0, done, [Exec("git", ["clean", "-ffdx"])]);
    done := done + [Exec("git", ["clean", "-ffdx"])];
    ExecuteCommand(w, lib, "git", ["reset", "--hard"]);
    Then(lib, c0, done, [Exec("git", ["reset", "--hard"])]);
    done := done + [Exec("git", ["reset", "--hard"])];
    ExecuteCommand(w, lib, "git", ["remote", "set-url", "origin", build.repoURL]);
    Then(lib, c0, done, [Exec("git", ["remote", "set-url", "origin", build.repoURL])]);
    done := done + [Exec("git", ["remote", "set-url", "origin", build.repoURL])];
    ExecuteCommand(w, lib, "git", ["fetch", "origin"]);
    Then(lib, c0, done, [Exec("git", ["fetch", "origin"])]);
    done := done + [Exec("git", ["fetch", "origin"])];
    assert done == [IfDirectory(lib, gitDir)] + FetchSteps(lib, build, projectDir);
    WriteElse(w, lib);
    Then(lib, c0, done, [Else]);
    done := done + [Else];
    WriteCloneCmd(w, lib, build, projectDir);
    Then(lib, c0, done, CloneLines(lib, build, projectDir));
    done := done + CloneLines(lib, build, projectDir);
    WriteEndIf(w, lib);
    Then(lib, c0, done, [EndIf]);
  }

  method WriteCheckoutCmd(w: Writer, lib: Library, build: Build)
    requires |build.sha| >= 8
    modifies w
    ensures w.chunks == old(w.chunks) + Rendered(lib, CheckoutLines(lib, build))
  {
    ghost var c0 := w.chunks;
    ghost var done := [Echo(lib, "Checking out " + build.sha[..8] + " as " + build.refName + "...")];
    EchoColored(w, lib, "Checking out " + build.sha[..8] + " as " + build.refName + "...");
    ExecuteCommand(w, lib, "git", ["checkout", build.sha]);
    Then(lib, c0, done, [Exec("git", ["checkout", build.sha])]);
  }

  method WriteCdBuildDir(w: Writer, lib: Library, info: ShellScriptInfo)
    modifies w
    ensures w.chunks == old(w.chunks) + Rendered(lib, [CdBuildDirLine(lib, info)])
  {
    ExecuteCommand(w, lib, "cd", [FullProjectDir(lib, info)]);
  }

  /** `generateExports`: one `export` line per variable, in order. */
  method GenerateExports(lib: Library, info: ShellScriptInfo) returns (s: string)
    ensures s == RenderLines(lib, ExportLines(lib, info))
  {
    var w := new Writer();
    var variables := Variables(lib, info);
    var i := 0;
    while i < |variables|
      invariant 0 <= i <= |variables|
      invariant w.chunks == Rendered(lib, ExportLinesOf(variables[..i]))
    {
      assert variables[..i + 1][..i] == variables[..i];
      ExecuteCommand(w, lib, "export", [variables[i]]);
      RenderedAppend(lib, ExportLinesOf(variables[..i]), [Exec("export", [variables[i]])]);
      i := i + 1;
    }
    assert variables[..i] == variables;
    ConcatRendered(lib, ExportLines(lib, info));
    s := w.String();
  }

  /** `generatePreBuildScript`. */
  method GeneratePreBuildScript(lib: Library, info: ShellScriptInfo) returns (s: string)
    requires |info.build.sha| >= 8
    ensures s == RenderLines(lib, PreBuildLines(lib, info))
  {
    var w := new Writer();
    ghost var c0 := w.chunks;
    if |info.build.hostname| != 0 {
      ExecuteCommand(w, lib, "echo", ["Running on $(hostname) via " + info.build.hostname + "..."]);
    } else {
      ExecuteCommand(w, lib, "echo", ["Running on $(hostname)..."]);
    }
    ghost var done := [HostnameLine(info.build)];
    var build := info.build;
    var projectDir := FullProjectDir(lib, info);
    var gitDir := lib.joinPath(projectDir, ".git");
    if build.allowGitFetch {
      WriteFetchCmd(w, lib, build, projectDir, gitDir);
    } else {
      WriteCloneCmd(w, lib, build, projectDir);
    }
    Then(lib, c0, done, SyncLines(lib, info));
    done := done + SyncLines(lib, info);
    WriteCheckoutCmd(w, lib, build);
    Then(lib, c0, done, CheckoutLines(lib, build));
    done := done + CheckoutLines(lib, build);
    assert w.chunks == Rendered(lib, PreBuildLines(lib, info));
    ConcatRendered(lib, PreBuildLines(lib, info));
    s := w.String();
  }

  /** One pass of the loop of `generateCommands`: the lines of the first
      `i + 1` pieces are those of the first `i` and of piece `i`. */
  lemma PiecesStep(lib: Library, verbose: bool, pieces: seq<string>, i: int)
    requires 0 <= i < |pieces|
    ensures PiecesLines(lib, verbose, TrimEach(pieces[..i + 1]))
         == PiecesLines(lib, verbose, TrimEach(pieces[..i])) + PieceLines(lib, verbose, TrimSpace(pieces[i]))
  {
    assert pieces[..i + 1][..i] == pieces[..i];
    assert TrimEach(pieces[..i + 1]) == TrimEach(pieces[..i]) + [TrimSpace(pieces[i])];
  }

  /** The loop of `generateCommands` over the command lines: each trimmed
      line, behind its `echo` when the runner is verbose. */
  method WriteCommands(w: Writer, lib: Library, verbose: bool, pieces: seq<string>)
    modifies w
    ensures w.chunks == old(w.chunks) + Rendered(lib, PiecesLines(lib, verbose, TrimEach(pieces)))
  {
    ghost var start := w.chunks;
    assert w.chunks == start + Rendered(lib, PiecesLines(lib, verbose, TrimEach(pieces[..0])));
    var i := 0;
    while i < |pieces|
      invariant 0 <= i <= |pieces|
      invariant w.chunks == start + Rendered(lib, PiecesLines(lib, verbose, TrimEach(pieces[..i])))
    {
      ghost var c0 := w.chunks;
      var command := TrimSpace(pieces[i]);
      ghost var echo := if verbose then [Announcement(lib, command)] else [];
      if verbose {
        if command != "" {
          EchoColored(w, lib, "$ " + command);
        } else {
          ExecuteCommand(w, lib, "echo", []);
        }
      } else {
        assert w.chunks == c0 + Rendered(lib, echo);
      }
      w.WriteString(command + "\n");
      assert Rendered(lib, [Verbatim(command)]) == [command + "\n"];
      Then(lib, c0, echo, [Verbatim(command)]);
      Then(lib, start, PiecesLines(lib, verbose, TrimEach(pieces[..i])), PieceLines(lib, verbose, command));
      PiecesStep(lib, verbose, pieces, i);
      i := i + 1;
    }
    assert pieces[..i] == pieces;
  }

  /** `generateCommands`. */
  method GenerateCommands(lib: Library, info: ShellScriptInfo) returns (s: string)
    ensures s == RenderLines(lib, CommandPhaseLines(lib, info))
  {
    var w := new Writer();
    ghost var c0 := w.chunks;
    WriteCdBuildDir(w, lib, info);
    var commands := info.build.commands;
    commands := TrimSpace(commands);
    WriteCommands(w, lib, !BoolOrDefault(info.build.runner.disableVerbose, false), Split(commands, '\n'));
    Then(lib, c0, [CdBuildDirLine(lib, info)], PiecesLines(lib, Verbose(info.build), CommandPieces(info.build.commands)));
    assert w.chunks == Rendered(lib, CommandPhaseLines(lib, info));
    ConcatRendered(lib, CommandPhaseLines(lib, info));
    s := w.String();
  }

  /** The loop of `findFiles`: a `-wholename` filter for each string
      entry of `paths`, in order. */
  method CollectWholenames(lib: Library, paths: seq<Value>) returns (files: seq<string>)
    ensures files == WholenameTerms(lib, paths)
  {
    files := [];
    var i := 0;
    while i < |paths|
      invariant 0 <= i <= |paths|
      invariant files == WholenameTerms(lib, paths[..i])
    {
      assert paths[..i + 1][..i] == paths[..i];
      if paths[i].Str? {
        var file := "./" + lib.cleanPath(paths[i].s);
        files := files + ["-wholename " + lib.quote(file)];
      }
      i := i + 1;
    }
    assert paths[..i] == paths;
  }

  /** `findFiles`: writes the manifest-building lines for an artifact rule. */
  method FindFiles(w: Writer, lib: Library, list: Value, manifest: string)
    modifies w
    ensures w.chunks == old(w.chunks) + Rendered(lib, FindFilesLines(lib, list, manifest))
  {
    ghost var c0 := w.chunks;
    if !list.Hash? {
      assert Rendered(lib, FindFilesLines(lib, list, manifest)) == [];
      assert w.chunks == c0 + [];
      return;
    }
    var hash := list.entries;
    ghost var findPart: seq<Line> :=
      if |WholenameTerms(lib, PathItems(hash))| != 0 then [FindLine(lib, WholenameTerms(lib, PathItems(hash)), manifest)] else [];
    assert Rendered(lib, []) == [];
    if "paths" in hash && hash["paths"].List? {
      var files := CollectWholenames(lib, hash["paths"].items);
      if |files| != 0 {
        var joined := "'(' " + Join(files, " -or ") + " ')'";
        ExecuteCommandFormat(w, lib, "find . " + joined + " -type f >> " + lib.quote(manifest));
      } else {
        assert w.chunks == c0 + [];
      }
    } else {
      assert w.chunks == c0 + [];
    }
    assert w.chunks == c0 + Rendered(lib, findPart);
    ghost var c1 := w.chunks;
    ghost var untrackedPart: seq<Line> := if Lookup(hash, "untracked") == Bool(true) then [UntrackedLine(lib, manifest)] else [];
    if "untracked" in hash && hash["untracked"].Bool? && hash["untracked"].b {
      ExecuteCommandFormat(w, lib, "git ls-files -o >> " + lib.quote(manifest));
    } else {
      assert w.chunks == c1 + [];
    }
    assert w.chunks == c1 + Rendered(lib, untrackedPart);
    Then(lib, c0, findPart, untrackedPart);
  }

  /** The archive block of `generatePostBuildScript`: pack the listed
      files when a list was made. */
  method WriteArchive(w: Writer, lib: Library)
    modifies w
    ensures w.chunks == old(w.chunks) + Rendered(lib, ArchiveLines(lib))
  {
    ghost var c0 := w.chunks;
    ghost var done := [IfFile(lib, "artifacts.files")];
    WriteIfFile(w, lib, "artifacts.files");
    EchoColored(w, lib, "Archiving artifacts...");
    Then(lib, c0, done, [Echo(lib, "Archiving artifacts...")]);
    done := done + [Echo(lib, "Archiving artifacts...")];
    ExecuteCommand(w, lib, "tar", ["-zcv", "-T", "artifacts.files", "-f", "artifacts.tgz"]);
    Then(lib, c0, done, [Exec("tar", ["-zcv", "-T", "artifacts.files", "-f", "artifacts.tgz"])]);
    done := done + [Exec("tar", ["-zcv", "-T", "artifacts.files", "-f", "artifacts.tgz"])];
    WriteEndIf(w, lib);
    Then(lib, c0, done, [EndIf]);
    done := done + [EndIf];
    assert done == ArchiveLines(lib);
  }

  /** The upload block of `generatePostBuildScript`: send the archive when
      one was made. */
  method WriteUpload(w: Writer, lib: Library, build: Build)
    modifies w
    ensures w.chunks == old(w.chunks) + Rendered(lib, UploadLines(lib, build))
  {
    ghost var c0 := w.chunks;
    ghost var done := [IfFile(lib, "artifacts.tgz")];
    WriteIfFile(w, lib, "artifacts.tgz");
    EchoColored(w, lib, "Uploading artifacts...");
    Then(lib, c0, done, [Echo(lib, "Uploading artifacts...")]);
    done := done + [Echo(lib, "Uploading artifacts...")];
    ExecuteCommand(w, lib, "du", ["-h", "artifacts.tgz"]);
    Then(lib, c0, done, [Exec("du", ["-h", "artifacts.tgz"])]);
    done := done + [Exec("du", ["-h", "artifacts.tgz"])];
    ExecuteCommand(w, lib, "curl", ["-s", "-S", "--fail", "--retry", "3", "-X", "POST",
                                    "-#",
                                    "-o", "artifacts.upload.log",
                                    "-H", "BUILD-TOKEN: " + build.token,
                                    "-F", "file=@artifacts.tgz",
                                    lib.artifactsUploadURL(build.runner, build.id)]);
    Then(lib, c0, done, [CurlLine(lib, build)]);
    done := done + [CurlLine(lib, build)];
    WriteEndIf(w, lib);
    Then(lib, c0, done, [EndIf]);
    done := done + [EndIf];
    assert done == UploadLines(lib, build);
  }

  /** `generatePostBuildScript`. */
  method GeneratePostBuildScript(lib: Library, info: ShellScriptInfo) returns (s: string)
    ensures s == RenderLines(lib, PostBuildLines(lib, info))
  {
    var w := new Writer();
    ghost var c0 := w.chunks;
    WriteCdBuildDir(w, lib, info);
    ghost var done := [CdBuildDirLine(lib, info)];
    FindFiles(w, lib, Lookup(info.build.options, "artifacts"), "artifacts.files");
    ghost var found := FindFilesLines(lib, Lookup(info.build.options, "artifacts"), "artifacts.files");
    Then(lib, c0, done, found);
    done := done + found;
    WriteArchive(w, lib);
    Then(lib, c0, done, ArchiveLines(lib));
    done := done + ArchiveLines(lib);
    WriteUpload(w, lib, info.build);
    Then(lib, c0, done, UploadLines(lib, info.build));
    done := done + UploadLines(lib, info.build);
    EmptyPrefix(Rendered(lib, done));
    ConcatRendered(lib, PostBuildLines(lib, info));
    s := w.String();
  }

  /** What is written on an empty buffer is all the buffer holds. */
  lemma EmptyPrefix(chunks: seq<string>)
    ensures [] + chunks == chunks
  {
  }

  lemma HeaderText(lib: Library)
    ensures RenderLines(lib, [Literal("#!/usr/bin/env bash"), Literal("")]) == "#!/usr/bin/env bash\n\n"
  {
    var first := [Literal("#!/usr/bin/env bash")];
    assert [Literal("#!/usr/bin/env bash"), Literal("")][..1] == first;
    RenderOne(lib, Literal("#!/usr/bin/env bash"));
  }

  /** The fixed lines of the layout, with their newlines. */
  lemma FixedLines(lib: Library)
    ensures RenderLine(lib, Literal("set -eo pipefail")) + "\n" == "set -eo pipefail\n"
    ensures RenderLine(lib, Literal("echo")) + "\n" == "echo\n"
  {
  }

  /** The text of a script layout: the chunks `GenerateScript` writes, one
      after the other. */
  lemma LayoutText(lib: Library, exports: seq<Line>, pre: seq<Line>, cmds: seq<Line>, post: seq<Line>)
    ensures RenderLines(lib, Layout(lib, exports, pre, cmds, post))
         == "#!/usr/bin/env bash\n\n"
          + RenderLines(lib, exports)
          + "set -eo pipefail\n"
          + (": | eval " + lib.shellEscape(RenderLines(lib, pre)) + "\n")
          + "echo\n"
          + (": | eval " + lib.shellEscape(RenderLines(lib, cmds)) + "\n")
          + "echo\n"
          + (": | eval " + lib.shellEscape(RenderLines(lib, post)) + "\n")
  {
    var header := [Literal("#!/usr/bin/env bash"), Literal("")];
    HeaderText(lib);
    FixedLines(lib);
    var p0 := header + exports;
    RenderLinesAppend(lib, header, exports);
    var p1 := p0 + [Literal("set -eo pipefail")];
    RenderLinesSnoc(lib, p0, Literal("set -eo pipefail"));
    var p2 := p1 + [EvalLine(lib, pre)];
    RenderLinesSnoc(lib, p1, EvalLine(lib, pre));
    var p3 := p2 + [Literal("echo")];
    RenderLinesSnoc(lib, p2, Literal("echo"));
    var p4 := p3 + [EvalLine(lib, cmds)];
    RenderLinesSnoc(lib, p3, EvalLine(lib, cmds));
    var p5 := p4 + [Literal("echo")];
    RenderLinesSnoc(lib, p4, Literal("echo"));
    var p6 := p5 + [EvalLine(lib, post)];
    RenderLinesSnoc(lib, p5, EvalLine(lib, post));
    assert Layout(lib, exports, pre, cmds, post) == p6;
  }

  /** The writes of `GenerateScript` into its buffer, given the texts of
      the three phases and of the exports. */
  method WriteScript(lib: Library, exports: string, pre: string, cmds: string, post: string) returns (text: string)
    ensures text == "#!/usr/bin/env bash\n\n"
                  + exports
                  + "set -eo pipefail\n"
                  + (": | eval " + lib.shellEscape(pre) + "\n")
                  + "echo\n"
                  + (": | eval " + lib.shellEscape(cmds) + "\n")
                  + "echo\n"
                  + (": | eval " + lib.shellEscape(post) + "\n")
  {
    var w := new Writer();
    w.WriteString("#!/usr/bin/env bash\n\n");
    assert w.String() == "#!/usr/bin/env bash\n\n";
    w.WriteString(exports);
    w.WriteString("set -eo pipefail\n");
    w.WriteString(": | eval " + lib.shellEscape(pre) + "\n");
    w.WriteString("echo\n");
    w.WriteString(": | eval " + lib.shellEscape(cmds) + "\n");
    w.WriteString("echo\n");
    w.WriteString(": | eval " + lib.shellEscape(post) + "\n");
    text := w.String();
  }

  /** `GenerateScript`: the script text is the rendering of `ScriptLines`,
      the environment is the exported variable list, and the invocation is
      `su` for a set user and `bash` otherwise, with `--login` exactly for a
      login shell.  No error is ever returned. */
  method GenerateScript(lib: Library, info: ShellScriptInfo) returns (script: ShellScript, err: Option<string>)
    requires |info.build.sha| >= 8
    ensures script.script == RenderLines(lib, ScriptLines(lib, info))
    ensures script.environment == Variables(lib, info)
    ensures info.user.Some? ==> script.command == "su"
    ensures info.user.None? ==> script.command == "bash"
    ensures info.user.Some? && info.shellType == LoginShell ==>
              script.arguments == ["--shell", "/bin/bash", "--login", info.user.value]
    ensures info.user.Some? && info.shellType == NormalShell ==>
              script.arguments == ["--shell", "/bin/bash", info.user.value]
    ensures info.user.None? && info.shellType == LoginShell ==> script.arguments == ["--login"]
    ensures info.user.None? && info.shellType == NormalShell ==> script.arguments == []
    ensures err == None
  {
    var exports := GenerateExports(lib, info);
    var pre := GeneratePreBuildScript(lib, info);
    var cmds := GenerateCommands(lib, info);
    var post := GeneratePostBuildScript(lib, info);
    var text := WriteScript(lib, exports, pre, cmds, post);
    LayoutText(lib, ExportLines(lib, info), PreBuildLines(lib, info), CommandPhaseLines(lib, info), PostBuildLines(lib, info));

    var command: string;
    var arguments: seq<string> := [];
    if info.user.Some? {
      command := "su";
      if info.shellType == LoginShell {
        arguments := ["--shell", "/bin/bash", "--login", info.user.value];
      } else {
        arguments := ["--shell", "/bin/bash", info.user.value];
      }
    } else {
      command := "bash";
      if info.shellType == LoginShell {
        arguments := ["--login"];
      }
    }
    script := ShellScript(text, Variables(lib, info), command, arguments);
    err := None;
  }
}
