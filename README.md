# The bash script generator of the CI runner, in Dafny

This project models `BashShell` of `shells/bash.go`: the part of the CI runner
that turns a build description into one bash script. The script does four
things:

- It exports the build's variables.
- It brings the repository's working copy to the build's commit (the
  pre-build phase).
- It runs the build's commands (the command phase).
- It collects and uploads the artifacts (the post-build phase).

The project also models the choice of interpreter invocation that runs the
script (`su` or `bash`, with or without `--login`).

The model has four layers:

- `common.dfy` (module `Common`) holds the records the generator reads and
  returns: `Build`, `ShellScriptInfo`, `ShellScript`. It holds the loosely
  typed build options as a `Value` datatype. It also holds `Library`: the
  functions whose code is not modelled here (`helpers.ShellEscape`, Go's `%q`
  quoting, `path.Clean`, `filepath.Join`, `helpers.ToSlash`, the ANSI colour
  constants, `GetVariables`, `GetArtifactsUploadURL`). Every generator takes
  the `Library` as a parameter, so nothing proved depends on how those
  functions are written.
- `gostrings.dfy` (module `GoStrings`) holds the three functions of Go's
  `strings` package that the generator uses: `TrimSpace`, `Split` and `Join`.
  The module also proves their facts: trimming leaves no space at either end,
  splitting yields at least one piece, joining the pieces gives back the text,
  and the pieces hold no separator.
- `emitter.dfy` (module `Emitter`) holds the line emitters
  (`executeCommand`, `executeCommandFormat`, `echoColored`, and the
  `if`/`else`/`fi` writers) as methods on a `Writer` class. The class stands
  for the generator's `bufio.Writer` over a `bytes.Buffer`: a list of written
  chunks whose concatenation is the buffer's text. Each emitted line is also
  described by an abstract `Line`:
  - `Exec`: a command with escaped words;
  - `Literal`: shell source written as it is;
  - `Verbatim`: a line of the user's own command text.

  Structure is stated over these `Line` values, including the balance of the
  generator's `if`/`fi` blocks (`WellNested`).
- `bash.dfy` (module `Bash`) holds the generators.
  - For each phase there is a function giving the lines it writes:
    `ExportLines`, `PreBuildLines`, `CommandPhaseLines`, `PostBuildLines`,
    and `ScriptLines` for the whole script around them.
  - Each generator is a method that follows the Go code step by step. It is
    proved to write exactly the rendering of its function's lines.
  - `GenerateScript` is proved to return the rendering of `ScriptLines`, the
    same variable list as its environment, and the exact invocation for each
    combination of user and shell type. It never returns an error.
- `bashproperties.dfy` (module `BashProperties`) proves what those line
  sequences promise:
  - which branch the sync takes and in which order it runs;
  - that the checkout is last and names the whole commit;
  - the shape of the command phase in verbose and quiet mode;
  - what `findFiles` writes for each shape of artifact rule;
  - that the `if`/`fi` lines balance;
  - that, within the pre-build, command and post-build phases, the build
    token reaches only the upload header and the build options only the
    `findFiles` lines;
  - the layout of the script.

  It also works through concrete examples: a short command text in verbose
  and quiet mode, a checkout narration and an artifact rule.

Modelling notes:

- **Formats.** `fmt.Sprintf` with a literal format is written out as a string
  concatenation at each call site. `executeCommandFormat` therefore takes the
  already formatted text, and `echoColoredFormat` is `EchoColored` applied to
  that text.
- **Short commits.** `writeCheckoutCmd` slices `build.Sha[0:8]`, which panics
  in Go for a shorter SHA. The members that reach that slice require
  `|sha| >= 8`.
- **Quiet mode.** With `DisableVerbose` the command phase still writes every
  command line, the empty ones included, because `command + "\n"` is written
  whatever the mode (`shells/bash.go:166`; `BashProperties.QuietExample`).
- **Strict mode.** `set -eo pipefail` is written after the exports, not as
  the very first line (`shells/bash.go:240-241`; `BashProperties.ScriptLayout`).
- **Artifact paths.** Entries of `paths` that are not strings are skipped
  silently, and a rule or a `paths` value of the wrong type counts as absent
  (`shells/bash.go:175-200`).

## Model

| member | source | states |
|---|---|---|
| `Emitter.EscapeAll` | shells/bash.go:30-36 | one escaped word per input word, in the same order |
| `Emitter.Writer.WriteString` | shells/bash.go:38 | `io.WriteString` appends exactly one chunk, and the buffer text grows by exactly that string |
| `Emitter.ExecuteCommand` | shells/bash.go:29-39 | writes exactly one chunk, the escaped command followed by each escaped argument and a newline |
| `Emitter.ExecLineShape` | shells/bash.go:29-39 | a command line is the escaped command, then each escaped argument behind exactly one space |
| `Emitter.ExecLineIsOneLine` | shells/bash.go:29-39 | if no escaped word holds a newline, a command is one line of text |
| `Emitter.ExecLineWords` | shells/bash.go:29-39 | if no escaped word holds a space, splitting the line at spaces gives back exactly the escaped words |
| `Emitter.ExecuteCommandFormat` | shells/bash.go:41-43 | writes the formatted text unescaped, as one line |
| `Emitter.EchoColored` | shells/bash.go:45-48 | writes an `echo` of the text framed by the bold-green and reset codes |
| `Emitter.WriteIfDirectory` | shells/bash.go:59-61 | writes `if [[ -d <quoted dir> ]]; then` |
| `Emitter.WriteIfFile` | shells/bash.go:63-65 | writes `if [[ -e <quoted file> ]]; then` |
| `Emitter.WriteElse` | shells/bash.go:67-69 | writes the bare `else` line |
| `Emitter.WriteEndIf` | shells/bash.go:71-73 | writes the bare `fi` line |
| `Emitter.IfElseIsWellNested` | shells/bash.go:84-93 | an `if`, flat lines, `else`, flat lines and `fi` form a balanced block |
| `Emitter.IfIsWellNested` | shells/bash.go:213-216 | an `if`, flat lines and `fi` form a balanced block |
| `Emitter.WellNestedAppend` | shells/bash.go:207-228 | balanced blocks written one after another stay balanced |
| `GoStrings.TrimSpaceEnds` | shells/bash.go:156-158 | what `strings.TrimSpace` leaves neither starts nor ends with a space |
| `GoStrings.TrimSpaceTrims` | shells/bash.go:158 | the input is the trimmed text with only spaces before and after it |
| `GoStrings.Split` | shells/bash.go:157 | `strings.Split` always yields at least one piece |
| `GoStrings.JoinSplit` | shells/bash.go:157 | joining the pieces with the separator gives back the text |
| `GoStrings.SplitPiecesHaveNoSeparator` | shells/bash.go:157 | no piece holds the separator |
| `GoStrings.SplitJoin` | shells/bash.go:157 | splitting a join of separator-free pieces gives back the pieces |
| `GoStrings.JoinHasNoChar` | shells/bash.go:194 | a join holds a character only if a part or the separator does |
| `Bash.WriteCloneCmd` | shells/bash.go:75-81 | writes the clone narration, then `rm -rf`, `mkdir -p`, `git clone <repo>` and `cd`, all on the project directory |
| `Bash.WriteFetchCmd` | shells/bash.go:83-94 | writes `if [[ -d <gitDir> ]]`, the fetch narration, `cd`, `git clean -ffdx`, `git reset --hard`, `git remote set-url origin <repo>`, `git fetch origin`, `else`, the clone steps, `fi` |
| `Bash.WriteCheckoutCmd` | shells/bash.go:96-99 | writes the narration with the first 8 characters of the SHA and the ref, then `git checkout <full sha>` |
| `Bash.WriteCdBuildDir` | shells/bash.go:101-103 | writes `cd` into the slash-converted project directory |
| `Bash.GenerateExports` | shells/bash.go:110-121 | the text is one `export` line per variable of `GetVariables`, in order |
| `Bash.GeneratePreBuildScript` | shells/bash.go:123-147 | the text is the hostname notice, the fetch-or-clone or clone-only sync chosen by `AllowGitFetch`, then the checkout |
| `Bash.WriteCommands` | shells/bash.go:157-167 | for each command line, trimmed: its announcement when verbose, then the line itself |
| `Bash.GenerateCommands` | shells/bash.go:149-172 | the text is `cd` into the build directory, then the lines of the trimmed command text, split at newlines |
| `Bash.CollectWholenames` | shells/bash.go:186-191 | one `-wholename` filter per string entry of `paths`, in order, and none for other entries |
| `Bash.FindFiles` | shells/bash.go:174-202 | writes the lines `FindFilesLines` gives for the artifact rule |
| `Bash.WriteArchive` | shells/bash.go:212-216 | writes the `if [[ -e artifacts.files ]]` block that tars the listed files |
| `Bash.WriteUpload` | shells/bash.go:218-228 | writes the `if [[ -e artifacts.tgz ]]` block with `du -h` and the `curl` upload |
| `Bash.GeneratePostBuildScript` | shells/bash.go:204-233 | the text is `cd`, the `findFiles` lines, the archive block and the upload block |
| `Bash.LayoutText` | shells/bash.go:239-246 | the rendering of the script layout is the shebang, the exports, `set -eo pipefail`, and the three `: \| eval <escaped phase>` lines with an `echo` between each two |
| `Bash.WriteScript` | shells/bash.go:236-248 | the buffer of `GenerateScript` holds the eight writes in order |
| `Bash.GenerateScript` | shells/bash.go:235-271 | the script is the rendering of `ScriptLines` and the environment is the variable list; the command is `su` with `--shell /bin/bash` [`--login`] `<user>` when a user is set, otherwise `bash` [`--login`]; no error |
| `BashProperties.ExportsOnePerVariable` | shells/bash.go:115-117 | exactly one `export` line per variable, the i-th exporting the i-th variable |
| `BashProperties.HostnameNotice` | shells/bash.go:127-131 | the pre-build phase opens with an `echo` that names the host exactly when a hostname is set |
| `BashProperties.CloneOnly` | shells/bash.go:137-143 | without `AllowGitFetch`: 8 lines (notice, clone steps, checkout), no `if` or `else`, no `git fetch` |
| `BashProperties.FetchOrClone` | shells/bash.go:137-143 | with `AllowGitFetch`: 17 lines. An `if -d` on `<project>/.git`, the six fetch steps, `else`, the clone steps, `fi`, then the checkout, each at its position |
| `BashProperties.SyncChecksOutNothing` | shells/bash.go:75-94 | no step of the fetch or clone blocks is a `git checkout` |
| `BashProperties.CheckoutIsLast` | shells/bash.go:143 | the last line is `git checkout <full sha>`, the one before it is the 8-character narration, and no earlier line checks anything out |
| `BashProperties.CheckoutExample` | shells/bash.go:96-99 | for SHA `abcdef1234567890` the narration shows `abcdef12` and the checkout names the whole SHA |
| `BashProperties.PreBuildIsWellNested` | shells/bash.go:123-147 | the `if`/`else`/`fi` lines of the pre-build phase balance in both branches |
| `BashProperties.CommandPiecesAreTrimmedLines` | shells/bash.go:155-158 | the pieces of the trimmed text join back to it and there is at least one. Each command line is its piece trimmed, holds no newline and has no space at either end |
| `BashProperties.QuietPieces` | shells/bash.go:159-166 | with `DisableVerbose`, exactly one verbatim line per command line |
| `BashProperties.VerbosePieces` | shells/bash.go:159-166 | otherwise, exactly two lines per command line: its announcement (the bold-green `echo` of `$ <line>`, or a bare `echo` for an empty line), then the line |
| `BashProperties.CommandPhaseShape` | shells/bash.go:149-172 | the shape of the command phase. Verbose unless `DisableVerbose` is true, `cd` first, then the lines of each piece at their positions, in quiet and in verbose mode |
| `BashProperties.CommandPhaseIsFlat` | shells/bash.go:149-172 | the command phase writes no `if`, `else` or `fi` of its own |
| `BashProperties.ExampleTrimsText` | shells/bash.go:156 | trimming ` echo hi\n\n  ls\n` gives `echo hi\n\n  ls` |
| `BashProperties.SplitAroundEmptyLine` | shells/bash.go:157 | `x\n\ny` splits into `x`, the empty line and `y` when `x` and `y` hold no newline |
| `BashProperties.ExampleSplitsLines` | shells/bash.go:157 | `echo hi\n\n  ls` splits into `echo hi`, the empty line and `  ls` |
| `BashProperties.ExampleTrimsEach` | shells/bash.go:158 | trimming each of those three pieces gives `echo hi`, the empty line and `ls` |
| `BashProperties.ExamplePieces` | shells/bash.go:155-158 | the command lines of ` echo hi\n\n  ls\n` are `echo hi`, the empty line and `ls` |
| `BashProperties.ExampleWritesPieces` | shells/bash.go:159-166 | on a verbose runner those three lines are written as six, each behind its announcement |
| `BashProperties.VerboseExample` | shells/bash.go:149-172 | verbose: the coloured `$ echo hi`, `echo hi`, a bare `echo`, the empty line, the coloured `$ ls`, `ls` |
| `BashProperties.QuietExample` | shells/bash.go:166 | quiet: `echo hi`, the empty line and `ls`, with nothing else |
| `BashProperties.WholenamesOfStrings` | shells/bash.go:186-191 | no more filters than entries; each filter comes from a string entry of `paths`, and each string entry's filter is among them |
| `BashProperties.WholenamesAppend` | shells/bash.go:186-191 | the filters of two entry lists one after the other are the first list's filters followed by the second's, so the filters keep the order of the entries |
| `BashProperties.WholenamesOfOne` | shells/bash.go:187-190 | a single string entry gives exactly its own `-wholename` filter, and an entry of any other type gives none; with `WholenamesAppend`, one filter per string entry |
| `BashProperties.WholenamesKeepRepeats` | shells/bash.go:186-191 | two string entries give two filters in their order, even when they name the same path |
| `BashProperties.FindFilesShape` | shells/bash.go:174-202 | nothing for a rule that is not a map. Otherwise only the `find` line and the `git ls-files -o` line can appear: the `find` line exactly when some path is a string, the `git ls-files -o` line exactly when `untracked` is the boolean true, `find` first, and nothing when neither holds |
| `BashProperties.FindFilesExample` | shells/bash.go:174-202 | a rule with one string path, one boolean entry and `untracked` true gives one filtered `find` line, then `git ls-files -o` |
| `BashProperties.FoundIsFlat` | shells/bash.go:193-201 | the lines of `findFiles` open and close no block |
| `BashProperties.PostBuildShape` | shells/bash.go:204-233 | `cd`, the `findFiles` lines, the four archive lines, then the five upload lines. Without an `artifacts` map, exactly those ten fixed lines |
| `BashProperties.PostBuildIsWellNested` | shells/bash.go:207-228 | the `if`/`fi` lines of the post-build phase balance |
| `BashProperties.UploadRequest` | shells/bash.go:222-227 | the upload is a `curl` POST with 15 arguments. The token is in the `BUILD-TOKEN:` header after `-H`, the archive goes as `file=@artifacts.tgz`, and the upload address is last |
| `BashProperties.PhasesIgnoreToken` | shells/bash.go:123-172 | changing the build token changes neither the pre-build nor the command phase |
| `BashProperties.TokenOnlyInUpload` | shells/bash.go:204-233 | changing the build token changes only the upload line of the post-build phase, and in it only the header argument |
| `BashProperties.OptionsOnlyInFind` | shells/bash.go:204-228 | changing the build options, the artifact `paths` among them, leaves the pre-build and command phases unchanged and, in the post-build phase, changes only the `findFiles` lines between the `cd` line and the archive and upload blocks |
| `BashProperties.LayoutShape` | shells/bash.go:239-246 | every line of the script at its position. When the exports are all commands, `set -eo pipefail` appears exactly once |
| `BashProperties.LayoutOfVariables` | shells/bash.go:239-246 | the layout of the exports of a variable list, by position |
| `BashProperties.ScriptLayout` | shells/bash.go:235-253 | the script's line 2+k exports the k-th variable of its environment. `set -eo pipefail` follows the exports and occurs only there. The three phases are `eval`ed in the order pre-build, commands, post-build |

## Left out

- The bodies of `helpers.ShellEscape`, Go's `%q` / `strconv.Quote`, `path.Clean`, `filepath.Join`, `helpers.ToSlash` and the ANSI colour constants are not modelled. They are parameters in `Library`, so no property depends on them, and the escaping round trip through the shell cannot be stated.
- The producers of the inputs are not modelled: `AbstractShell.GetVariables`, `Build.FullProjectDir` (a field of `Build`) and `common.GetArtifactsUploadURL`. They are parameters or inputs.
- `GetFeatures`, `IsDefault` and `init` are not modelled. They register the shell and report its features; they write no script, and `IsDefault` reads the operating system.
- `echoWarning` is not modelled: nothing in this file calls it.
- `fmt.Sprintf` is not modelled as a function. Each literal format is written out at its call site, so `echoColoredFormat` has no member of its own (it is `EchoColored` on the formatted text).
- The buffering of `bufio.Writer` and the calls to `Flush` are not modelled. The `Writer` holds every chunk at once, which is what the buffer holds after `Flush`.
- Go strings are bytes; here they are sequences of characters. `TrimSpace` on invalid UTF-8 is not modelled.
- The panic of `build.Sha[0:8]` for a SHA shorter than 8 bytes is not modelled. `Bash.WriteCheckoutCmd`, `Bash.GeneratePreBuildScript` and `Bash.GenerateScript` require `|sha| >= 8` instead.
- A nil `Runner` pointer is not modelled: `Build.runner` is a plain value.
- The runtime behaviour of the emitted script (`set -e`, the `eval` indirection, `curl`'s retries) is not modelled.
- The dynamic types of the build options are modelled only as the shapes the source tests for (`map[string]interface{}`, `[]interface{}`, `string`, `bool`); any other type is the single value `Other`.
- Bash.GetName: returns the constant `"bash"` and carries no contract.
- Bash.FullProjectDir: models `fullProjectDir` (`shells/bash.go:105-108`), `helpers.ToSlash` of the build's project directory; a one-call definition over the abstract `toSlash`, so it carries no contract of its own.
- GoStrings.TrimSpace: models `strings.TrimSpace` (`shells/bash.go:156`, `shells/bash.go:158`) and carries no contract of its own; what it computes is stated by `GoStrings.TrimSpaceEnds` and `GoStrings.TrimSpaceTrims`, which together determine it.
- GoStrings.Join: models `strings.Join` (`shells/bash.go:38`, `shells/bash.go:194`) and carries no contract of its own; it is tied to `GoStrings.Split` by `GoStrings.JoinSplit` and `GoStrings.SplitJoin`, and `GoStrings.JoinHasNoChar` says it adds no character beyond the parts and the separator.
- Bash.WriteCommands: a loop body of `generateCommands` extracted into a method of its own, so that the pieces are passed in rather than computed inside the loop.
- Bash.CollectWholenames: the loop of `findFiles` extracted into a method that returns the filters.
- Bash.WriteArchive: one commented block of `generatePostBuildScript` extracted into a method of its own.
- Bash.WriteUpload: the other commented block of `generatePostBuildScript` extracted into a method of its own.
- BashProperties.WholenamesOfStrings: states membership in both directions but neither the order nor the count of the filters; those are stated by `BashProperties.WholenamesAppend` and `BashProperties.WholenamesOfOne`.
- BashProperties.PhasesIgnoreToken: does not cover the exports, since `GetVariables` receives the whole build and may read the token.
- BashProperties.OptionsOnlyInFind: does not cover the exports, since `GetVariables` receives the whole build and may read its options.
